/**
 Truncation of file contents at a rune boundary (internal/core/fallback.go).

 Well-formed byte sequences are those of section 4 of RFC 3629. `utf8.DecodeLastRune` belongs to Go's
 library; `LastRuneSize` states what it reports: the length of the rune that ends the slice, or 0 when
 the slice is empty or does not end in a well-formed rune.
 */
module Utf8 {
  import opened Bytes

  predicate Tail(b: int) {
    0x80 <= b < 0xC0
  }

  /** Length of the well-formed rune with these bytes, -1 standing for no byte: the table of RFC 3629. */
  function TableLen(b0: int, b1: int, b2: int, b3: int): (n: nat)
    ensures n <= 4
  {
    if b0 < 0 then 0
    else if b0 < 0x80 then 1
    else if 0xC2 <= b0 <= 0xDF && Tail(b1) then 2
    else if b0 == 0xE0 && 0xA0 <= b1 <= 0xBF && Tail(b2) then 3
    else if (0xE1 <= b0 <= 0xEC || 0xEE <= b0 <= 0xEF) && Tail(b1) && Tail(b2) then 3
    else if b0 == 0xED && 0x80 <= b1 <= 0x9F && Tail(b2) then 3
    else if b0 == 0xF0 && 0x90 <= b1 <= 0xBF && Tail(b2) && Tail(b3) then 4
    else if 0xF1 <= b0 <= 0xF3 && Tail(b1) && Tail(b2) && Tail(b3) then 4
    else if b0 == 0xF4 && 0x80 <= b1 <= 0x8F && Tail(b2) && Tail(b3) then 4
    else 0
  }

  function At(s: seq<Byte>, i: nat): int {
    if i < |s| then s[i] else -1
  }

  /** Length of the well-formed rune that starts `s`, or 0 if none does. */
  function RuneLen(s: seq<Byte>): (n: nat)
    ensures n <= 4 && n <= |s|
  {
    TableLen(At(s, 0), At(s, 1), At(s, 2), At(s, 3))
  }

  predicate Valid(s: seq<Byte>) {
    s == [] || (RuneLen(s) > 0 && Valid(s[RuneLen(s)..]))
  }

  predicate IsRune(s: seq<Byte>) {
    |s| > 0 && RuneLen(s) == |s|
  }

  // ---- Runes are the encodings of code points ----

  /** A code point that is no surrogate. */
  predicate IsScalar(x: int) {
    0 <= x < 0xD800 || 0xE000 <= x <= 0x10_FFFF
  }

  /** Section 3 of RFC 3629: six bits in each tail byte, and the fewest bytes that will do. */
  function Encode(x: int): (s: seq<Byte>)
    requires IsScalar(x)
  {
    if x < 0x80 then [x]
    else if x < 0x800 then [0xC0 + x / 64, 0x80 + x % 64]
    else if x < 0x1_0000 then [0xE0 + x / 4096, 0x80 + x / 64 % 64, 0x80 + x % 64]
    else [0xF0 + x / 0x4_0000, 0x80 + x / 4096 % 64, 0x80 + x / 64 % 64, 0x80 + x % 64]
  }

  /** Six more bits. */
  function Then(high: int, tail: int): int {
    high * 64 + tail - 0x80
  }

  /** What the bits of a rune stand for. */
  function Decode(s: seq<Byte>): int
    requires IsRune(s)
  {
    var b0, b1, b2, b3 := At(s, 0), At(s, 1), At(s, 2), At(s, 3);
    if |s| == 1 then b0
    else if |s| == 2 then Then(b0 - 0xC0, b1)
    else if |s| == 3 then Then(Then(b0 - 0xE0, b1), b2)
    else Then(Then(Then(b0 - 0xF0, b1), b2), b3)
  }

  lemma SixBits(high: int, tail: int)
    requires high >= 0 && Tail(tail)
    ensures Then(high, tail) / 64 == high && Then(high, tail) % 64 == tail - 0x80
  {}

  lemma EncodeThree(x: int)
    requires IsScalar(x) && 0x800 <= x < 0x1_0000
    ensures IsRune(Encode(x)) && Decode(Encode(x)) == x
  {
    ShiftTwice(x);
  }

  lemma EncodeFour(x: int)
    requires IsScalar(x) && 0x1_0000 <= x
    ensures IsRune(Encode(x)) && Decode(Encode(x)) == x
  {
    ShiftTwice(x);
  }

  lemma EncodeIsRune(x: int)
    requires IsScalar(x)
    ensures IsRune(Encode(x)) && Decode(Encode(x)) == x
  {
    if 0x1_0000 <= x {
      EncodeFour(x);
    } else if 0x800 <= x {
      EncodeThree(x);
    }
  }

  lemma DecodeTwo(s: seq<Byte>)
    requires IsRune(s) && |s| == 2
    ensures IsScalar(Decode(s)) && Encode(Decode(s)) == s
  {
    SixBits(s[0] as int - 0xC0, s[1]);
  }

  lemma DecodeThree(s: seq<Byte>)
    requires IsRune(s) && |s| == 3
    ensures IsScalar(Decode(s)) && Encode(Decode(s)) == s
  {
    var high := s[0] as int - 0xE0;
    SixBits(high, s[1]);
    SixBits(Then(high, s[1]), s[2]);
    ShiftTwice(Decode(s));
  }

  lemma DecodeFour(s: seq<Byte>)
    requires IsRune(s) && |s| == 4
    ensures IsScalar(Decode(s)) && Encode(Decode(s)) == s
  {
    var high := s[0] as int - 0xF0;
    SixBits(high, s[1]);
    SixBits(Then(high, s[1]), s[2]);
    SixBits(Then(Then(high, s[1]), s[2]), s[3]);
    ShiftTwice(Decode(s));
  }

  lemma ShiftTwice(x: int)
    requires x >= 0
    ensures x / 4096 == x / 64 / 64 && x / 0x4_0000 == x / 64 / 64 / 64
  {}

  lemma DecodeIsScalar(s: seq<Byte>)
    requires IsRune(s)
    ensures IsScalar(Decode(s)) && Encode(Decode(s)) == s
  {
    if |s| == 2 {
      DecodeTwo(s);
    } else if |s| == 3 {
      DecodeThree(s);
    } else if |s| == 4 {
      DecodeFour(s);
    }
  }

  /** A rune is exactly the encoding of a code point. */
  lemma RunesEncode(s: seq<Byte>)
    ensures IsRune(s) <==> exists x :: IsScalar(x) && Encode(x) == s
  {
    if IsRune(s) {
      DecodeIsScalar(s);
    }
    if x :| IsScalar(x) && Encode(x) == s {
      EncodeIsRune(x);
    }
  }

  predicate EndsInRune(s: seq<Byte>, n: nat) {
    n <= |s| && IsRune(s[|s| - n..])
  }

  /** The least size from `n` up at which a rune ends `s`, or 0. */
  function SizeFrom(s: seq<Byte>, n: nat): (m: nat)
    requires 1 <= n <= 5
    ensures m <= |s| && m <= 4
    ensures m > 0 ==> EndsInRune(s, m)
    decreases 5 - n
  {
    if n == 5 then 0 else if EndsInRune(s, n) then n else SizeFrom(s, n + 1)
  }

  function LastRuneSize(s: seq<Byte>): (n: nat)
    ensures n <= |s| && n <= 4
  {
    SizeFrom(s, 1)
  }

  lemma {:induction false} SizeIsFound(s: seq<Byte>, n: nat, k: nat)
    requires 1 <= n <= k <= 4 && EndsInRune(s, k)
    ensures SizeFrom(s, n) > 0
    decreases 5 - n
  {
    if n < k {
      SizeIsFound(s, n + 1, k);
    }
  }

  lemma RuneLenOfPrefix(s: seq<Byte>, k: nat)
    requires RuneLen(s) > 0 && k <= |s|
    ensures RuneLen(s[..k]) == if k >= RuneLen(s) then RuneLen(s) else 0
  {}

  predicate AllScalar(xs: seq<int>) {
    forall i :: 0 <= i < |xs| ==> IsScalar(xs[i])
  }

  function EncodeAll(xs: seq<int>): seq<Byte>
    requires AllScalar(xs)
  {
    if xs == [] then [] else Encode(xs[0]) + EncodeAll(xs[1..])
  }

  lemma RuneThenMore(r: seq<Byte>, t: seq<Byte>)
    requires IsRune(r)
    ensures RuneLen(r + t) == |r|
  {}

  lemma {:induction false} EncodedIsValid(xs: seq<int>)
    requires AllScalar(xs)
    ensures Valid(EncodeAll(xs))
  {
    if xs != [] {
      var r, rest := Encode(xs[0]), EncodeAll(xs[1..]);
      EncodeIsRune(xs[0]);
      EncodedIsValid(xs[1..]);
      RuneThenMore(r, rest);
      assert (r + rest)[|r|..] == rest;
    }
  }

  lemma {:induction false} ValidIsEncoded(s: seq<Byte>) returns (xs: seq<int>)
    requires Valid(s)
    ensures AllScalar(xs) && EncodeAll(xs) == s
  {
    if s == [] {
      xs := [];
    } else {
      var n := RuneLen(s);
      var rest := ValidIsEncoded(s[n..]);
      RuneLenOfPrefix(s, n);
      var x := Decode(s[..n]);
      DecodeIsScalar(s[..n]);
      xs := [x] + rest;
      assert xs[1..] == rest && s == s[..n] + s[n..];
    }
  }

  /** Valid bytes are exactly the encodings of sequences of code points. */
  lemma ValidExactly(s: seq<Byte>)
    ensures Valid(s) <==> exists xs :: AllScalar(xs) && EncodeAll(xs) == s
  {
    if Valid(s) {
      var xs := ValidIsEncoded(s);
    }
    if xs :| AllScalar(xs) && EncodeAll(xs) == s {
      EncodedIsValid(xs);
    }
  }

  /** A rune is a byte that is no tail byte followed by tail bytes only. */
  lemma RuneShape(s: seq<Byte>, i: nat)
    requires i < RuneLen(s)
    ensures Tail(s[i]) <==> i > 0
  {}

  lemma NotARune(s: seq<Byte>, i: nat)
    requires i < |s| && (Tail(s[i]) <==> i == 0)
    ensures !IsRune(s)
  {}

  lemma TailEnds(s: seq<Byte>, n: nat, m: nat)
    requires n <= |s| && EndsInRune(s[n..], m)
    ensures EndsInRune(s, m)
  {
    assert s[n..][|s| - n - m..] == s[|s| - m..];
  }

  lemma {:induction false} ValidEndsSomewhere(s: seq<Byte>) returns (m: nat)
    requires Valid(s) && s != []
    ensures 1 <= m <= 4 && EndsInRune(s, m)
  {
    var n := RuneLen(s);
    if n == |s| {
      assert s[|s| - n..] == s;
      m := n;
    } else {
      m := ValidEndsSomewhere(s[n..]);
      TailEnds(s, n, m);
    }
  }

  /** In a valid input every position lies on a boundary or inside one rune. */
  lemma {:induction false} Locate(b: seq<Byte>, cap: nat) returns (q: nat)
    requires Valid(b) && cap < |b|
    ensures q <= cap && Valid(b[..q])
    ensures cap < q + RuneLen(b[q..])
  {
    var n := RuneLen(b);
    if cap < n {
      q := 0;
      assert b[..0] == [] && b[0..] == b;
    } else {
      var p := Locate(b[n..], cap - n);
      q := n + p;
      assert b[n..][p..] == b[q..];
      assert b[..q][n..] == b[n..][..p];
      RuneLenOfPrefix(b, q);
    }
  }

  /** Inside a rune no slice ends in a well-formed rune. */
  lemma InsideRune(b: seq<Byte>, q: nat, e: nat)
    requires q < e <= |b| && e < q + RuneLen(b[q..])
    ensures LastRuneSize(b[..e]) == 0
  {
    var rune := b[q..];
    forall n: nat | 1 <= n <= 4 && n <= e ensures !EndsInRune(b[..e], n) {
      var last := b[..e][e - n..];
      if e - n == q {
        RuneLenOfPrefix(rune, n);
        assert rune[..n] == last;
      } else if e - n > q {
        RuneShape(rune, e - n - q);
        assert last[0] == rune[e - n - q];
        NotARune(last, 0);
      } else {
        RuneShape(rune, 0);
        assert last[q - (e - n)] == rune[0];
        NotARune(last, q - (e - n));
      }
    }
  }

  // ---- The source's loop ----

  /** `e` is the largest cut within four bytes below the cap that ends in a rune, or 0 if there is none. */
  ghost predicate LastGoodCut(b: seq<Byte>, cap: nat, e: nat)
    requires e <= cap <= |b|
  {
    && (e > 0 ==> cap - e <= 4 && LastRuneSize(b[..e]) > 0)
    && forall f :: e < f <= cap && cap - f <= 4 ==> LastRuneSize(b[..f]) == 0
  }

  lemma {:induction false} LongestValidPrefix(b: seq<Byte>, cap: nat, e: nat)
    requires Valid(b) && e <= cap < |b| && LastGoodCut(b, cap, e)
    ensures Valid(b[..e]) && cap - e <= 3
    ensures forall f :: e < f <= cap ==> !Valid(b[..f])
  {
    var q := Locate(b, cap);
    forall f | q < f <= cap ensures LastRuneSize(b[..f]) == 0 && !Valid(b[..f]) {
      InsideRune(b, q, f);
      if Valid(b[..f]) {
        var m := ValidEndsSomewhere(b[..f]);
        SizeIsFound(b[..f], 1, m);
      }
    }
    if q > 0 {
      var m := ValidEndsSomewhere(b[..q]);
      SizeIsFound(b[..q], 1, m);
    }
    assert e == q;
  }

  method TruncateBytesAtRune(b: seq<Byte>, maxLen: int) returns (r: seq<Byte>)
    ensures maxLen <= 0 || |b| <= maxLen ==> r == b
    ensures 0 < maxLen < |b| ==> |r| <= maxLen && r == b[..|r|] && LastGoodCut(b, maxLen, |r|)
    ensures Valid(b) && maxLen >= 1 ==>
              && |r| <= maxLen && |r| <= |b| && r == b[..|r|] && Valid(r)
              && (forall f :: |r| < f <= maxLen && f <= |b| ==> !Valid(b[..f]))
              && (maxLen < |b| ==> maxLen - |r| <= 3)
  {
    if maxLen <= 0 || |b| <= maxLen {
      assert b[..|b|] == b;
      return b;
    }
    r := CutAtRune(b[..maxLen]);
    forall e | 0 <= e <= maxLen ensures b[..maxLen][..e] == b[..e] {}
    if Valid(b) {
      LongestValidPrefix(b, maxLen, |r|);
    }
  }

  /** The part of TruncateBytesAtRune that walks back from the cap. */
  method CutAtRune(cut: seq<Byte>) returns (r: seq<Byte>)
    ensures |r| <= |cut| && r == cut[..|r|] && LastGoodCut(cut, |cut|, |r|)
  {
    assert cut[..|cut|] == cut;
    if cut == [] {
      return cut;
    }
    var ok := DecodesAt(cut, |cut|);
    if ok {
      GoodCutFound(cut, |cut|);
      return cut;
    }
    var end := WalkBack(cut);
    return cut[..end];
  }

  // The loop carries this predicate folded: the verifier unfolds a recursive definition once or twice, which
  // does not reach the lock's end.
  ghost predicate CleanEnd(b: seq<Byte>, f: nat, lock: nat)
    requires f <= |b|
  {
    if lock == 0 then LastRuneSize(b[..f]) > 0 else CleanEnd(b, f, lock - 1)
  }

  ghost predicate EndsCleanly(b: seq<Byte>, f: nat)
    requires f <= |b|
  {
    CleanEnd(b, f, 3 + |b|)
  }

  lemma {:induction false} OpenEnd(b: seq<Byte>, f: nat, lock: nat)
    requires f <= |b|
    ensures CleanEnd(b, f, lock) <==> LastRuneSize(b[..f]) > 0
  {
    if lock > 0 {
      OpenEnd(b, f, lock - 1);
    }
  }

  method DecodesAt(cut: seq<Byte>, end: nat) returns (ok: bool)
    requires end <= |cut|
    ensures ok <==> EndsCleanly(cut, end)
  {
    OpenEnd(cut, end, 3 + |cut|);
    ok := LastRuneSize(cut[..end]) > 0;
  }

  lemma GoodCutFound(cut: seq<Byte>, end: nat)
    requires end <= |cut| && (end > 0 ==> |cut| - end <= 4 && EndsCleanly(cut, end))
    requires forall f :: end < f <= |cut| && |cut| - f <= 4 ==> !EndsCleanly(cut, f)
    ensures LastGoodCut(cut, |cut|, end)
  {
    forall f | 0 <= f <= |cut| ensures EndsCleanly(cut, f) <==> LastRuneSize(cut[..f]) > 0 {
      OpenEnd(cut, f, 3 + |cut|);
    }
  }

  /** For a slice that does not end in a rune: the next end below that does, within four bytes, or 0. */
  method WalkBack(cut: seq<Byte>) returns (end: nat)
    requires cut != [] && !EndsCleanly(cut, |cut|)
    ensures end <= |cut| && LastGoodCut(cut, |cut|, end)
  {
    end := |cut| - 1;
    while end > 0 && |cut| - end <= 4
      invariant 0 <= end < |cut|
      invariant forall f :: end < f <= |cut| ==> !EndsCleanly(cut, f)
    {
      var ok := DecodesAt(cut, end);
      if ok {
        GoodCutFound(cut, end);
        return;
      }
      end := end - 1;
    }
    GoodCutFound(cut, 0);
    end := 0;
  }
}
