/**
 The filter between the embedder and the vector store (internal/vector/embed_validate.go): empty, all-zero,
 NaN and infinite vectors are dropped. A component is the 32-bit pattern of a float.
 */
module Sanitizing {
  import opened VectorFile

  predicate IsNaN(c: Bits32) {
    c / 0x80_0000 % 256 == 255 && c % 0x80_0000 != 0
  }

  predicate IsInf(c: Bits32) {
    c / 0x80_0000 % 256 == 255 && c % 0x80_0000 == 0
  }

  predicate IsZero(c: Bits32) {
    c == 0 || c == 0x8000_0000
  }

  /** A float of 32 bits by its sign, exponent and fraction. */
  function Float(negative: bool, exponent: nat, fraction: nat): Bits32
    requires exponent < 256 && fraction < 0x80_0000
  {
    (if negative then 0x8000_0000 else 0) + exponent * 0x80_0000 + fraction
  }

  /** The tests are those of IEEE 754: the greatest exponent is for NaN and the infinities, zero has a sign. */
  lemma KindsOfFloat(negative: bool, exponent: nat, fraction: nat)
    requires exponent < 256 && fraction < 0x80_0000
    ensures var c := Float(negative, exponent, fraction);
      && (IsNaN(c) <==> exponent == 255 && fraction != 0)
      && (IsInf(c) <==> exponent == 255 && fraction == 0)
      && (IsZero(c) <==> exponent == 0 && fraction == 0)
  {
    var c := Float(negative, exponent, fraction);
    var high := exponent + if negative then 256 else 0;
    assert c == high * 0x80_0000 + fraction;
    assert c / 0x80_0000 == high && c % 0x80_0000 == fraction;
  }

  lemma EveryFloat(c: Bits32)
    ensures c == Float(c >= 0x8000_0000, c / 0x80_0000 % 256, c % 0x80_0000)
  {}

  datatype Health = Fine | Zero | NaN | Inf

  ghost predicate Healthy(v: Vector) {
    && (forall i :: 0 <= i < |v| ==> !IsNaN(v[i]) && !IsInf(v[i]))
    && exists i :: 0 <= i < |v| && !IsZero(v[i])
  }

  method ScanVectorHealth(v: Vector) returns (h: Health)
    ensures h == Fine <==> Healthy(v)
    ensures h == NaN ==> exists i :: 0 <= i < |v| && IsNaN(v[i])
    ensures h == Inf ==> exists i :: 0 <= i < |v| && IsInf(v[i])
    ensures h == Zero ==> forall i :: 0 <= i < |v| ==> IsZero(v[i])
  {
    var allZero := true;
    for i := 0 to |v|
      invariant forall k :: 0 <= k < i ==> !IsNaN(v[k]) && !IsInf(v[k])
      invariant allZero <==> forall k :: 0 <= k < i ==> IsZero(v[k])
    {
      if IsNaN(v[i]) {
        return NaN;
      }
      if IsInf(v[i]) {
        return Inf;
      }
      if !IsZero(v[i]) {
        allZero := false;
      }
    }
    return if allZero then Zero else Fine;
  }

  /** The healthy ones among the vectors, with their ids, in order. */
  ghost function CleanIds(ids: seq<Int64>, vecs: seq<Vector>): seq<Int64>
    requires |ids| == |vecs|
  {
    if ids == [] then []
    else CleanIds(ids[..|ids| - 1], vecs[..|ids| - 1]) + if Healthy(vecs[|ids| - 1]) then [ids[|ids| - 1]] else []
  }

  ghost function CleanVecs(vecs: seq<Vector>): seq<Vector> {
    if vecs == [] then []
    else CleanVecs(vecs[..|vecs| - 1]) + if Healthy(vecs[|vecs| - 1]) then [vecs[|vecs| - 1]] else []
  }

  /** The worker passes no expected dimension, so none is checked here. */
  method SanitizeEmbeddings(ids: seq<Int64>, vecs: seq<Vector>)
    returns (outIds: seq<Int64>, outVecs: seq<Vector>, rejected: nat)
    requires |ids| == |vecs|
    ensures outIds == CleanIds(ids, vecs) && outVecs == CleanVecs(vecs) && |outIds| == |outVecs|
    ensures |outIds| + rejected == |ids|
  {
    outIds, outVecs, rejected := [], [], 0;
    for i := 0 to |vecs|
      invariant outIds == CleanIds(ids[..i], vecs[..i]) && outVecs == CleanVecs(vecs[..i])
      invariant |outIds| == |outVecs| && |outIds| + rejected == i
    {
      assert ids[..i + 1][..i] == ids[..i] && vecs[..i + 1][..i] == vecs[..i];
      if |vecs[i]| == 0 {
        rejected := rejected + 1;
        continue;
      }
      var h := ScanVectorHealth(vecs[i]);
      if h == Fine {
        outIds := outIds + [ids[i]];
        outVecs := outVecs + [vecs[i]];
      } else {
        rejected := rejected + 1;
      }
    }
    assert ids[..|ids|] == ids && vecs[..|vecs|] == vecs;
  }
}
