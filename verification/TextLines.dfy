/**
 Texts and their lines: `Lines` is Go's `strings.Split(s, "\n")`, which loses nothing.
 */
module TextLines {
  function Lines(s: string): (ls: seq<string>)
    ensures |ls| >= 1
  {
    if s == "" then [""]
    else
      var rest := Lines(s[1..]);
      if s[0] == '\n' then [""] + rest else [[s[0]] + rest[0]] + rest[1..]
  }

  /** What the builder holds after writing line `i`: every line but the last gets its newline back. */
  function LineText(ls: seq<string>, i: nat): string
    requires i < |ls|
  {
    ls[i] + if i < |ls| - 1 then "\n" else ""
  }

  function Text(ls: seq<string>, i: nat, j: nat): string
    requires i <= j <= |ls|
  {
    if i == j then "" else Text(ls, i, j - 1) + LineText(ls, j - 1)
  }

  lemma {:induction false} TextSplit(ls: seq<string>, i: nat, j: nat, k: nat)
    requires i <= j <= k <= |ls|
    ensures Text(ls, i, j) + Text(ls, j, k) == Text(ls, i, k)
  {
    if j < k {
      TextSplit(ls, i, j, k - 1);
    }
  }

  lemma {:induction false} TextOfTail(ls: seq<string>, i: nat, j: nat)
    requires 1 <= i <= j <= |ls|
    ensures Text(ls[1..], i - 1, j - 1) == Text(ls, i, j)
  {
    if i < j {
      TextOfTail(ls, i, j - 1);
    }
  }

  /** The lines written back, first line first. */
  function Unsplit(ls: seq<string>): string
    requires ls != []
  {
    if |ls| == 1 then ls[0] else ls[0] + "\n" + Unsplit(ls[1..])
  }

  lemma {:induction false} UnsplitIsText(ls: seq<string>)
    requires ls != []
    ensures Unsplit(ls) == Text(ls, 0, |ls|)
  {
    assert Text(ls, 0, 1) == Text(ls, 0, 0) + LineText(ls, 0);
    if |ls| > 1 {
      UnsplitIsText(ls[1..]);
      TextSplit(ls, 0, 1, |ls|);
      TextOfTail(ls, 1, |ls|);
    }
  }

  lemma {:induction false} UnsplitLines(s: string)
    ensures Unsplit(Lines(s)) == s
  {
    if s != "" {
      var rest := Lines(s[1..]);
      UnsplitLines(s[1..]);
      assert Lines(s)[1..] == if s[0] == '\n' then rest else rest[1..];
      assert s == [s[0]] + s[1..];
    }
  }

  /** Writing all lines back gives the text. */
  lemma LinesRoundTrip(s: string)
    ensures Text(Lines(s), 0, |Lines(s)|) == s
  {
    UnsplitIsText(Lines(s));
    UnsplitLines(s);
  }

  /** Only an empty last line leaves nothing in the builder. */
  lemma {:induction false} TextEmpty(ls: seq<string>, i: nat, j: nat)
    requires i <= j <= |ls|
    ensures Text(ls, i, j) == "" <==> i == j || (i == j - 1 == |ls| - 1 && ls[i] == "")
  {
    if i < j - 1 {
      TextEmpty(ls, i, j - 1);
    }
  }

  lemma {:induction false} LinesHoldNoNewline(s: string)
    ensures forall i :: 0 <= i < |Lines(s)| ==> '\n' !in Lines(s)[i]
  {
    if s != "" {
      var rest := Lines(s[1..]);
      LinesHoldNoNewline(s[1..]);
      forall i | 0 <= i < |Lines(s)| ensures '\n' !in Lines(s)[i] {
        assert i > 0 ==> Lines(s)[i] == if s[0] == '\n' then rest[i - 1] else rest[i];
      }
    }
  }

  lemma {:induction false} LinesOfOneLine(s: string)
    requires '\n' !in s
    ensures Lines(s) == [s] && Lines(s + "\n") == [s, ""]
  {
    if s == "" {
      assert "\n"[1..] == "";
    } else {
      LinesOfOneLine(s[1..]);
      assert s == [s[0]] + s[1..];
      assert (s + "\n")[1..] == s[1..] + "\n";
    }
  }
}
