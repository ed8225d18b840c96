/**
 Splitting oversized chunks at line ends (internal/parser/chunker.go, splitLargeChunks).

 The tokenizer is a parameter: any function from text to a count.
 */
module Splitting {
  import opened Options
  import opened TextLines

  const MAX_CHUNK_TOKENS: nat := 1024

  datatype Chunk = Chunk(
    chunkIndex: int,
    symbolName: string,
    kind: string,
    startLine: int,
    endLine: int,
    content: string,
    tokenCount: int,
    signature: string,
    parseQuality: string,
    parentIndex: Option<int>
  )

  // ---- Token sums ----

  function Cost(ls: seq<string>, count: string -> nat, i: nat): nat
    requires i < |ls|
  {
    count(ls[i]) + if i < |ls| - 1 then 1 else 0
  }

  function Sum(ls: seq<string>, count: string -> nat, i: nat, j: nat): nat
    requires i <= j <= |ls|
  {
    if i == j then 0 else Sum(ls, count, i, j - 1) + Cost(ls, count, j - 1)
  }

  // ---- What a split is ----

  /** Part `part` covers lines `i` to `j` of chunk `c`, and holds them as the source promises. */
  ghost predicate IsPart(c: Chunk, count: string -> nat, part: Chunk, index: int, i: nat, j: nat)
    requires i < j <= |Lines(c.content)|
  {
    var ls := Lines(c.content);
    && part.content == Text(ls, i, j) && part.content != ""
    && part.startLine == c.startLine + i
    && part.endLine == (if j == |ls| then c.endLine else c.startLine + j - 1)
    && part.tokenCount == count(part.content)
    && part.chunkIndex == index
    && part.symbolName == c.symbolName && part.kind == c.kind
    && part.signature == c.signature && part.parentIndex == c.parentIndex && part.parseQuality == ""
    // No part of two or more lines reaches the limit, and none could have taken one more line.
    && (j - i >= 2 ==> Sum(ls, count, i, j) < MAX_CHUNK_TOKENS)
    && (j < |ls| ==> Sum(ls, count, i, j + 1) >= MAX_CHUNK_TOKENS)
  }

  ghost predicate PartAt(c: Chunk, count: string -> nat, parts: seq<Chunk>, cuts: seq<nat>, base: int, k: nat)
    requires k < |parts| && |cuts| == |parts| + 1
  {
    cuts[k] < cuts[k + 1] <= |Lines(c.content)| && IsPart(c, count, parts[k], base + k, cuts[k], cuts[k + 1])
  }

  /** The parts lie end to end from the first line, ending at the given cuts. */
  ghost predicate PartsAt(c: Chunk, count: string -> nat, parts: seq<Chunk>, cuts: seq<nat>, base: int) {
    && |cuts| == |parts| + 1
    && cuts[0] == 0 && cuts[|parts|] <= |Lines(c.content)|
    && forall k: nat :: k < |parts| ==> PartAt(c, count, parts, cuts, base, k)
  }

  /** `parts` is the split of `c`: only an empty last line may be left over. */
  ghost predicate IsSplit(c: Chunk, count: string -> nat, parts: seq<Chunk>, cuts: seq<nat>, base: int) {
    && PartsAt(c, count, parts, cuts, base)
    && var ls := Lines(c.content);
      || cuts[|parts|] == |ls|
      || (cuts[|parts|] == |ls| - 1 && ls[|ls| - 1] == "")
  }

  lemma PartsSnoc(c: Chunk, count: string -> nat, parts: seq<Chunk>, cuts: seq<nat>, base: int, part: Chunk, j: nat)
    requires PartsAt(c, count, parts, cuts, base)
    requires cuts[|parts|] < j <= |Lines(c.content)|
    requires IsPart(c, count, part, base + |parts|, cuts[|parts|], j)
    ensures PartsAt(c, count, parts + [part], cuts + [j], base)
  {
    forall k: nat | k < |parts + [part]| ensures PartAt(c, count, parts + [part], cuts + [j], base, k) {
      if k < |parts| {
        assert PartAt(c, count, parts, cuts, base, k);
      }
    }
  }

  method SplitChunk(c: Chunk, count: string -> nat, base: int) returns (parts: seq<Chunk>, ghost cuts: seq<nat>)
    ensures IsSplit(c, count, parts, cuts, base)
    ensures Joined(parts) == c.content
  {
    var lines := Lines(c.content);
    var current, currentStart, tokensSoFar := "", c.startLine, 0;
    parts, cuts := [], [0];
    ghost var from := 0;
    for i := 0 to |lines|
      invariant PartsAt(c, count, parts, cuts, base) && from == cuts[|parts|]
      invariant from <= i && (i > 0 ==> from < i)
      invariant current == Text(lines, from, i)
      invariant currentStart == c.startLine + from
      invariant tokensSoFar == Sum(lines, count, from, i)
      invariant i - from >= 2 ==> tokensSoFar < MAX_CHUNK_TOKENS
    {
      var lineTokens := count(lines[i]);
      if i < |lines| - 1 {
        lineTokens := lineTokens + 1;
      }
      TextEmpty(lines, from, i);
      if tokensSoFar + lineTokens >= MAX_CHUNK_TOKENS && |current| > 0 {
        var part := Chunk(base + |parts|, c.symbolName, c.kind, currentStart, c.startLine + i - 1,
                          current, count(current), c.signature, "", c.parentIndex);
        PartsSnoc(c, count, parts, cuts, base, part, i);
        parts, cuts, from := parts + [part], cuts + [i], i;
        current, currentStart, tokensSoFar := "", c.startLine + i, 0;
      }
      ghost var before := current;
      current := current + lines[i];
      if i < |lines| - 1 {
        current := current + "\n";
      }
      assert current == before + LineText(lines, i);
      tokensSoFar := tokensSoFar + lineTokens;
    }
    TextEmpty(lines, from, |lines|);
    if |current| > 0 {
      var part := Chunk(base + |parts|, c.symbolName, c.kind, currentStart, c.endLine,
                        current, count(current), c.signature, "", c.parentIndex);
      PartsSnoc(c, count, parts, cuts, base, part, |lines|);
      parts, cuts := parts + [part], cuts + [|lines|];
    }
    SplitLosesNothing(c, count, parts, cuts, base);
  }

  // ---- What a split keeps ----

  function Joined(chunks: seq<Chunk>): string {
    if chunks == [] then "" else Joined(chunks[..|chunks| - 1]) + chunks[|chunks| - 1].content
  }

  lemma {:induction false} JoinedIsText(c: Chunk, count: string -> nat, parts: seq<Chunk>, cuts: seq<nat>, base: int,
                                        k: nat)
    requires PartsAt(c, count, parts, cuts, base) && k <= |parts|
    ensures cuts[k] <= |Lines(c.content)| && Joined(parts[..k]) == Text(Lines(c.content), 0, cuts[k])
  {
    if k > 0 {
      JoinedIsText(c, count, parts, cuts, base, k - 1);
      assert parts[..k][..k - 1] == parts[..k - 1];
      assert PartAt(c, count, parts, cuts, base, k - 1);
      TextSplit(Lines(c.content), 0, cuts[k - 1], cuts[k]);
    }
  }

  /** The parts of an oversized chunk concatenate to its content. */
  lemma SplitLosesNothing(c: Chunk, count: string -> nat, parts: seq<Chunk>, cuts: seq<nat>, base: int)
    requires IsSplit(c, count, parts, cuts, base)
    ensures Joined(parts) == c.content
  {
    var ls := Lines(c.content);
    JoinedIsText(c, count, parts, cuts, base, |parts|);
    assert parts[..|parts|] == parts;
    TextSplit(ls, 0, cuts[|parts|], |ls|);
    TextEmpty(ls, cuts[|parts|], |ls|);
    LinesRoundTrip(c.content);
  }

  /** The parts start where the chunk starts and follow each other line by line. */
  lemma SplitTilesLines(c: Chunk, count: string -> nat, parts: seq<Chunk>, cuts: seq<nat>, base: int)
    requires IsSplit(c, count, parts, cuts, base)
    ensures parts == [] <==> c.content == ""
    ensures parts != [] ==> parts[0].startLine == c.startLine
    ensures forall k :: 0 <= k < |parts| - 1 ==> parts[k + 1].startLine == parts[k].endLine + 1
  {
    SplitLosesNothing(c, count, parts, cuts, base);
    if parts != [] {
      assert PartAt(c, count, parts, cuts, base, 0);
      assert Joined(parts) == Joined(parts[..|parts| - 1]) + parts[|parts| - 1].content;
      assert PartAt(c, count, parts, cuts, base, |parts| - 1);
    }
    forall k | 0 <= k < |parts| - 1 ensures parts[k + 1].startLine == parts[k].endLine + 1 {
      assert PartAt(c, count, parts, cuts, base, k);
      assert PartAt(c, count, parts, cuts, base, k + 1);
    }
  }

  /** The text ends in a newline, and the line before it alone reaches the limit (or is not there). */
  predicate EndsAfterHugeLine(c: Chunk, count: string -> nat) {
    var ls := Lines(c.content);
    ls[|ls| - 1] == "" && (|ls| == 1 || Cost(ls, count, |ls| - 2) >= MAX_CHUNK_TOKENS)
  }

  /** The parts cover the last line, and so end on the chunk's own last line, except in one case. */
  lemma SplitReachesEndExactly(c: Chunk, count: string -> nat, parts: seq<Chunk>, cuts: seq<nat>, base: int)
    requires IsSplit(c, count, parts, cuts, base) && count("") == 0
    ensures cuts[|parts|] == |Lines(c.content)| <==> !EndsAfterHugeLine(c, count)
    ensures parts != [] ==>
              parts[|parts| - 1].endLine ==
              (if EndsAfterHugeLine(c, count) then c.startLine + |Lines(c.content)| - 2 else c.endLine)
  {
    var ls := Lines(c.content);
    var n, last := |ls|, |parts| - 1;
    if parts != [] {
      assert PartAt(c, count, parts, cuts, base, last);
      var i, j := cuts[last], cuts[last + 1];
      if j == n {
        TextEmpty(ls, i, n);
        assert n >= 2 && i <= n - 2 ==> Sum(ls, count, i, n) >= Cost(ls, count, n - 1) + Cost(ls, count, n - 2);
      } else {
        assert Sum(ls, count, i, n) == Sum(ls, count, i, n - 1) + Cost(ls, count, n - 1);
        assert i == n - 2;
        assert Sum(ls, count, i, n - 1) == Sum(ls, count, i, i) + Cost(ls, count, i);
      }
    }
  }

  /** A chunk of two lines, a huge one and the empty one after its newline. */
  function HugeLine(line: string, count: string -> nat): Chunk {
    Chunk(0, "", "block", 1, 2, line + "\n", count(line + "\n"), "", "full", None)
  }

  /** Its one part ends a line before the chunk does. */
  lemma HugeLineEndsEarly(line: string, count: string -> nat, parts: seq<Chunk>, cuts: seq<nat>, base: int)
    requires '\n' !in line && count("") == 0 && count(line) + 1 >= MAX_CHUNK_TOKENS
    requires IsSplit(HugeLine(line, count), count, parts, cuts, base)
    ensures |parts| == 1 && parts[0].content == line + "\n" && parts[0].endLine == 1
  {
    var c := HugeLine(line, count);
    LinesOfOneLine(line);
    SplitReachesEndExactly(c, count, parts, cuts, base);
    SplitTilesLines(c, count, parts, cuts, base);
    OnePart(c, count, parts, cuts, base);
    SplitLosesNothing(c, count, parts, cuts, base);
    assert parts[..0] == [] && parts == [parts[0]];
  }

  lemma OnePart(c: Chunk, count: string -> nat, parts: seq<Chunk>, cuts: seq<nat>, base: int)
    requires PartsAt(c, count, parts, cuts, base) && cuts[|parts|] == 1
    ensures |parts| == 1
  {
    assert PartAt(c, count, parts, cuts, base, 0);
    if |parts| > 1 {
      CutsClimb(c, count, parts, cuts, base, 1);
    }
  }

  lemma {:induction false} CutsClimb(c: Chunk, count: string -> nat, parts: seq<Chunk>, cuts: seq<nat>, base: int,
                                     k: nat)
    requires PartsAt(c, count, parts, cuts, base) && k < |parts|
    ensures cuts[k] < cuts[|parts|]
    decreases |parts| - k
  {
    assert PartAt(c, count, parts, cuts, base, k);
    if k + 1 < |parts| {
      CutsClimb(c, count, parts, cuts, base, k + 1);
    }
  }

  /** Parts that start at the same line end at the same line. */
  lemma NextPartAgrees(c: Chunk, count: string -> nat, base: int, p: seq<Chunk>, cs: seq<nat>,
                       q: seq<Chunk>, ds: seq<nat>, i: nat)
    requires i < |p| && i < |q| && |cs| == |p| + 1 && |ds| == |q| + 1 && cs[i] == ds[i]
    requires PartAt(c, count, p, cs, base, i) && PartAt(c, count, q, ds, base, i)
    ensures cs[i + 1] == ds[i + 1] && p[i] == q[i]
  {
    NextCutUnique(Lines(c.content), count, cs[i], cs[i + 1], ds[i + 1]);
    NextCutUnique(Lines(c.content), count, cs[i], ds[i + 1], cs[i + 1]);
  }

  lemma LongerPrefix<T>(s: seq<T>, t: seq<T>, k: nat)
    requires k < |s| && k < |t| && s[..k] == t[..k] && s[k] == t[k]
    ensures s[..k + 1] == t[..k + 1]
  {
    assert s[..k + 1] == s[..k] + [s[k]] && t[..k + 1] == t[..k] + [t[k]];
  }

  lemma {:induction false} CutsAgree(c: Chunk, count: string -> nat, base: int,
                  p: seq<Chunk>, cs: seq<nat>, q: seq<Chunk>, ds: seq<nat>, k: nat)
    requires PartsAt(c, count, p, cs, base) && PartsAt(c, count, q, ds, base)
    requires k <= |p| && k <= |q|
    ensures p[..k] == q[..k] && cs[..k + 1] == ds[..k + 1]
  {
    if k == 0 {
      assert cs[..1] == [cs[0]] && ds[..1] == [ds[0]];
    } else {
      CutsAgree(c, count, base, p, cs, q, ds, k - 1);
      assert cs[k - 1] == cs[..k][k - 1] == ds[..k][k - 1] == ds[k - 1];
      NextPartAgrees(c, count, base, p, cs, q, ds, k - 1);
      LongerPrefix(p, q, k - 1);
      LongerPrefix(cs, ds, k);
    }
  }

  lemma {:induction false} SumMonotone(ls: seq<string>, count: string -> nat, i: nat, j: nat, k: nat)
    requires i <= j <= k <= |ls|
    ensures Sum(ls, count, i, j) <= Sum(ls, count, i, k)
  {
    if j < k {
      SumMonotone(ls, count, i, j, k - 1);
    }
  }

  /** A tokenizer that counts a text as the sum of its pieces, and a newline as one token. */
  ghost predicate Additive(count: string -> nat) {
    && count("") == 0 && count("\n") == 1
    && forall a: string, b: string :: count(a + b) == count(a) + count(b)
  }

  lemma {:induction false} SumIsCount(ls: seq<string>, count: string -> nat, i: nat, j: nat)
    requires i <= j <= |ls| && Additive(count)
    ensures Sum(ls, count, i, j) == count(Text(ls, i, j))
  {
    if i < j {
      SumIsCount(ls, count, i, j - 1);
      assert count(LineText(ls, j - 1)) == Cost(ls, count, j - 1) by {
        assert ls[j - 1] + "" == ls[j - 1];
      }
      assert count(Text(ls, i, j - 1) + LineText(ls, j - 1)) == count(Text(ls, i, j));
    }
  }

  /** Then a part of more than one line has fewer than 1024 tokens, and with the next line it would not. */
  lemma PartsFillTheLimit(c: Chunk, count: string -> nat, parts: seq<Chunk>, cuts: seq<nat>, base: int, k: nat)
    requires IsSplit(c, count, parts, cuts, base) && Additive(count) && k < |parts|
    ensures cuts[k + 1] <= |Lines(c.content)|
    ensures cuts[k + 1] >= cuts[k] + 2 ==> parts[k].tokenCount < 1024
    ensures cuts[k + 1] < |Lines(c.content)| ==>
              parts[k].tokenCount + count(LineText(Lines(c.content), cuts[k + 1])) >= 1024
  {
    var ls := Lines(c.content);
    assert PartAt(c, count, parts, cuts, base, k);
    var i, j := cuts[k], cuts[k + 1];
    SumIsCount(ls, count, i, j);
    if j < |ls| {
      SumIsCount(ls, count, i, j + 1);
      assert count(Text(ls, i, j) + LineText(ls, j)) == count(Text(ls, i, j + 1));
    }
  }

  lemma NextCutUnique(ls: seq<string>, count: string -> nat, i: nat, j: nat, k: nat)
    requires i < j <= |ls| && i < k <= |ls|
    requires j < |ls| ==> Sum(ls, count, i, j + 1) >= MAX_CHUNK_TOKENS
    requires k - i >= 2 ==> Sum(ls, count, i, k) < MAX_CHUNK_TOKENS
    ensures k <= j
  {
    if j < k {
      SumMonotone(ls, count, i, j + 1, k);
    }
  }

  /** The description determines the split. */
  lemma SplitIsUnique(c: Chunk, count: string -> nat, base: int,
                      p: seq<Chunk>, cs: seq<nat>, q: seq<Chunk>, ds: seq<nat>)
    requires IsSplit(c, count, p, cs, base) && IsSplit(c, count, q, ds, base)
    ensures p == q && cs == ds
  {
    if |p| <= |q| {
      SplitNotLonger(c, count, base, p, cs, q, ds);
    } else {
      SplitNotLonger(c, count, base, q, ds, p, cs);
    }
    CutsAgree(c, count, base, p, cs, q, ds, |p|);
    assert p[..|p|] == p && q[..|q|] == q && cs[..|p| + 1] == cs && ds[..|q| + 1] == ds;
  }

  lemma SplitNotLonger(c: Chunk, count: string -> nat, base: int,
                       p: seq<Chunk>, cs: seq<nat>, q: seq<Chunk>, ds: seq<nat>)
    requires IsSplit(c, count, p, cs, base) && IsSplit(c, count, q, ds, base)
    requires |p| <= |q|
    ensures |p| == |q|
  {
    CutsAgree(c, count, base, p, cs, q, ds, |p|);
    assert cs[|p|] == cs[..|p| + 1][|p|] == ds[..|p| + 1][|p|] == ds[|p|];
    if |p| < |q| {
      assert PartAt(c, count, q, ds, base, |p|);
      TextEmpty(Lines(c.content), ds[|p|], ds[|p| + 1]);
    }
  }

  // ---- The whole pass ----

  ghost predicate IsPieceOf(c: Chunk, count: string -> nat, piece: seq<Chunk>, cuts: seq<nat>, base: int) {
    if c.tokenCount <= MAX_CHUNK_TOKENS then piece == [c] else IsSplit(c, count, piece, cuts, base)
  }

  ghost predicate PieceAt(chunks: seq<Chunk>, count: string -> nat, result: seq<Chunk>,
                          marks: seq<nat>, cuts: seq<seq<nat>>, n: nat)
    requires n < |chunks| && |marks| == |chunks| + 1 && |cuts| == |chunks|
  {
    && marks[n] <= marks[n + 1] <= |result|
    && IsPieceOf(chunks[n], count, result[marks[n]..marks[n + 1]], cuts[n], marks[n])
  }

  /** `result` lists, chunk by chunk, either the chunk itself or its split; chunk `n` starts at `marks[n]`. */
  ghost predicate IsSplitOfAll(chunks: seq<Chunk>, count: string -> nat, result: seq<Chunk>,
                               marks: seq<nat>, cuts: seq<seq<nat>>)
  {
    && |marks| == |chunks| + 1 && |cuts| == |chunks|
    && marks[0] == 0 && marks[|chunks|] == |result|
    && forall n: nat :: n < |chunks| ==> PieceAt(chunks, count, result, marks, cuts, n)
  }

  method SplitLargeChunks(chunks: seq<Chunk>, count: string -> nat)
    returns (result: seq<Chunk>, ghost marks: seq<nat>, ghost cuts: seq<seq<nat>>)
    ensures IsSplitOfAll(chunks, count, result, marks, cuts)
    ensures Joined(result) == Joined(chunks)
  {
    result, marks, cuts := [], [0], [];
    for n := 0 to |chunks|
      invariant IsSplitOfAll(chunks[..n], count, result, marks, cuts)
    {
      var c := chunks[n];
      ghost var pieceCuts: seq<nat> := [];
      var piece := [c];
      if c.tokenCount > MAX_CHUNK_TOKENS {
        piece, pieceCuts := SplitChunk(c, count, |result|);
      }
      PassSnoc(chunks[..n], c, count, result, piece, marks, cuts, pieceCuts);
      assert chunks[..n + 1] == chunks[..n] + [c];
      result := result + piece;
      marks, cuts := marks + [|result|], cuts + [pieceCuts];
    }
    assert chunks[..|chunks|] == chunks;
    PassLosesNothing(chunks, count, result, marks, cuts);
  }

  lemma PassSnoc(init: seq<Chunk>, c: Chunk, count: string -> nat, before: seq<Chunk>, piece: seq<Chunk>,
                 marks: seq<nat>, cuts: seq<seq<nat>>, pieceCuts: seq<nat>)
    requires IsSplitOfAll(init, count, before, marks, cuts)
    requires IsPieceOf(c, count, piece, pieceCuts, |before|)
    ensures IsSplitOfAll(init + [c], count, before + piece, marks + [|before + piece|], cuts + [pieceCuts])
  {
    var result := before + piece;
    forall n: nat | n < |init + [c]|
      ensures PieceAt(init + [c], count, result, marks + [|result|], cuts + [pieceCuts], n)
    {
      if n < |init| {
        assert PieceAt(init, count, before, marks, cuts, n);
        assert result[marks[n]..marks[n + 1]] == before[marks[n]..marks[n + 1]];
      } else {
        assert result[|before|..|result|] == piece;
      }
    }
  }

  lemma {:induction false} JoinedConcat(a: seq<Chunk>, b: seq<Chunk>)
    ensures Joined(a + b) == Joined(a) + Joined(b)
  {
    if b == [] {
      assert a + b == a;
    } else {
      assert (a + b)[..|a + b| - 1] == a + b[..|b| - 1];
      JoinedConcat(a, b[..|b| - 1]);
    }
  }

  lemma PieceLosesNothing(c: Chunk, count: string -> nat, piece: seq<Chunk>, cuts: seq<nat>, base: int)
    requires IsPieceOf(c, count, piece, cuts, base)
    ensures Joined(piece) == c.content
  {
    if c.tokenCount <= MAX_CHUNK_TOKENS {
      assert Joined([c]) == Joined([]) + c.content;
    } else {
      SplitLosesNothing(c, count, piece, cuts, base);
    }
  }

  lemma {:induction false} PrefixLosesNothing(chunks: seq<Chunk>, count: string -> nat, result: seq<Chunk>,
                                              marks: seq<nat>, cuts: seq<seq<nat>>, n: nat)
    requires IsSplitOfAll(chunks, count, result, marks, cuts) && n <= |chunks|
    ensures marks[n] <= |result| && Joined(result[..marks[n]]) == Joined(chunks[..n])
  {
    if n > 0 {
      PrefixLosesNothing(chunks, count, result, marks, cuts, n - 1);
      assert PieceAt(chunks, count, result, marks, cuts, n - 1);
      var i, j := marks[n - 1], marks[n];
      assert result[..j] == result[..i] + result[i..j];
      JoinedConcat(result[..i], result[i..j]);
      PieceLosesNothing(chunks[n - 1], count, result[i..j], cuts[n - 1], i);
      assert chunks[..n][..n - 1] == chunks[..n - 1];
    }
  }

  /** No text is lost over the whole pass, and none of it is moved. */
  lemma PassLosesNothing(chunks: seq<Chunk>, count: string -> nat, result: seq<Chunk>,
                         marks: seq<nat>, cuts: seq<seq<nat>>)
    requires IsSplitOfAll(chunks, count, result, marks, cuts)
    ensures Joined(result) == Joined(chunks)
  {
    PrefixLosesNothing(chunks, count, result, marks, cuts, |chunks|);
    assert chunks[..|chunks|] == chunks && result[..|result|] == result;
  }
}
