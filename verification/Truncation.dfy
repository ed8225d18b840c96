/**
 Cutting one chunk down to a token budget (internal/core/assembler.go, truncateChunk).

 The source separates lines only once the builder holds something, so empty lines at the top are
 paid for but vanish, and the lines up to the first non-empty one are taken whatever they cost.

 A text is a string of bytes, one character for each, so that lengths are those of Go's `len`.
 */
module Truncating {
  import opened TextLines

  function LineCost(line: string): nat {
    |line| / 4 + 1
  }

  function CostOfFirst(ls: seq<string>, k: nat): nat
    requires k <= |ls|
  {
    if k == 0 then 0 else CostOfFirst(ls, k - 1) + LineCost(ls[k - 1])
  }

  /** Number of empty lines at the top. */
  function LeadingEmpty(ls: seq<string>): (m: nat)
    ensures m <= |ls|
    ensures forall i :: 0 <= i < m ==> ls[i] == ""
    ensures m < |ls| ==> ls[m] != ""
  {
    if ls == [] || ls[0] != "" then 0 else 1 + LeadingEmpty(ls[1..])
  }

  /** The lines taken without looking at the budget. */
  function Forced(ls: seq<string>): (f: nat)
    ensures f <= |ls|
  {
    if LeadingEmpty(ls) < |ls| then LeadingEmpty(ls) + 1 else |ls|
  }

  /** Lines `i` to `j` with newlines between them. */
  function JoinLines(ls: seq<string>, i: nat, j: nat): string
    requires i <= j <= |ls|
  {
    if i == j then "" else if i + 1 == j then ls[i] else JoinLines(ls, i, j - 1) + "\n" + ls[j - 1]
  }

  /** The first `k` lines are what the budget allows. */
  ghost predicate TakesLines(ls: seq<string>, budget: int, k: nat) {
    && Forced(ls) <= k <= |ls|
    && (k > Forced(ls) ==> CostOfFirst(ls, k) <= budget)
    && (k < |ls| ==> CostOfFirst(ls, k + 1) > budget)
  }

  method TruncateText(content: string, budget: int) returns (text: string, tokens: nat, ghost k: nat)
    ensures TakesLines(Lines(content), budget, k)
    ensures tokens == CostOfFirst(Lines(content), k)
    ensures text == JoinLines(Lines(content), LeadingEmpty(Lines(content)), k)
    ensures tokens <= budget <==> CostOfFirst(Lines(content), Forced(Lines(content))) <= budget
  {
    var lines := Lines(content);
    text, tokens, k := TakeLines(lines, budget);
  }

  method TakeLines(lines: seq<string>, budget: int) returns (text: string, tokens: nat, ghost k: nat)
    ensures TakesLines(lines, budget, k)
    ensures tokens == CostOfFirst(lines, k)
    ensures text == JoinLines(lines, LeadingEmpty(lines), k)
    ensures tokens <= budget <==> CostOfFirst(lines, Forced(lines)) <= budget
  {
    ghost var m := LeadingEmpty(lines);
    text, tokens, k := "", 0, 0;
    for n := 0 to |lines|
      invariant k == n && tokens == CostOfFirst(lines, n)
      invariant n <= m ==> text == ""
      invariant n > m ==> text == JoinLines(lines, m, n) && text != ""
      invariant n > m + 1 ==> tokens <= budget
    {
      var lineTokens := |lines[n]| / 4 + 1;
      if tokens + lineTokens > budget && |text| > 0 {
        break;
      }
      if |text| > 0 {
        text := text + "\n";
      }
      text := text + lines[n];
      tokens := tokens + lineTokens;
      k := k + 1;
    }
    FitsExactly(lines, budget, k);
  }

  lemma {:induction false} CostMonotone(ls: seq<string>, i: nat, j: nat)
    requires i <= j <= |ls|
    ensures CostOfFirst(ls, i) <= CostOfFirst(ls, j)
  {
    if i < j {
      CostMonotone(ls, i, j - 1);
    }
  }

  /** The cut fits the budget exactly when the lines up to the first non-empty one do. */
  lemma FitsExactly(ls: seq<string>, budget: int, k: nat)
    requires TakesLines(ls, budget, k)
    ensures CostOfFirst(ls, k) <= budget <==> CostOfFirst(ls, Forced(ls)) <= budget
  {
    CostMonotone(ls, Forced(ls), k);
  }

  /** The budget fixes how many lines are taken. */
  lemma {:induction false} TakesLinesUnique(ls: seq<string>, budget: int, k: nat, l: nat)
    requires TakesLines(ls, budget, k) && TakesLines(ls, budget, l)
    ensures k == l
  {
    if k < l {
      CostMonotone(ls, k + 1, l);
    } else if l < k {
      CostMonotone(ls, l + 1, k);
    }
  }

  lemma {:induction false} JoinIsText(ls: seq<string>, i: nat, j: nat)
    requires i < j <= |ls|
    ensures Text(ls, i, j) == JoinLines(ls, i, j) + if j < |ls| then "\n" else ""
  {
    if i + 1 < j {
      JoinIsText(ls, i, j - 1);
    } else {
      assert Text(ls, i, j) == Text(ls, i, i) + LineText(ls, i);
    }
  }

  lemma {:induction false} JoinStarts(ls: seq<string>, i: nat, j: nat)
    requires i < j <= |ls|
    ensures ls[i] <= JoinLines(ls, i, j)
  {
    if i + 1 < j {
      JoinStarts(ls, i, j - 1);
    }
  }

  /** Lines cost a quarter of their text, newlines included, and at most one token more for each line. */
  lemma {:induction false} CostOfText(ls: seq<string>, k: nat)
    requires k <= |ls|
    ensures |Text(ls, 0, k)| <= 4 * CostOfFirst(ls, k) <= |Text(ls, 0, k)| + 4 * k
  {
    if k > 0 {
      CostOfText(ls, k - 1);
      assert |Text(ls, 0, k)| == |Text(ls, 0, k - 1)| + |LineText(ls, k - 1)|;
    }
  }

  /** A cut text has no more than four bytes for each token it is charged. */
  lemma CutIsPaidFor(content: string, budget: int, k: nat)
    requires TakesLines(Lines(content), budget, k)
    ensures var ls := Lines(content); |JoinLines(ls, LeadingEmpty(ls), k)| <= 4 * CostOfFirst(ls, k)
  {
    var ls := Lines(content);
    var m := LeadingEmpty(ls);
    CostOfText(ls, k);
    TextSplit(ls, 0, m, k);
    if m < k {
      JoinIsText(ls, m, k);
    }
  }

  /** The cut is a prefix of the chunk exactly when no empty top line was dropped before some text. */
  lemma PrefixExactly(content: string, k: nat)
    requires Forced(Lines(content)) <= k <= |Lines(content)|
    ensures var ls := Lines(content); var m := LeadingEmpty(ls);
      JoinLines(ls, m, k) <= content <==> m == 0 || m == |ls|
  {
    var ls := Lines(content);
    var m := LeadingEmpty(ls);
    LinesRoundTrip(content);
    if m < |ls| {
      TextSplit(ls, 0, k, |ls|);
      JoinIsText(ls, 0, k);
      if m > 0 {
        JoinStarts(ls, m, k);
        LinesHoldNoNewline(content);
        TextSplit(ls, 0, 1, |ls|);
        assert Text(ls, 0, 1) == Text(ls, 0, 0) + LineText(ls, 0);
        assert content[0] == '\n';
        assert JoinLines(ls, m, k)[0] == ls[m][0];
      }
    }
  }

  /** A text with an empty line at the top: within the budget it is cut, but to no prefix of itself. */
  lemma BlankTopIsDropped(k: nat)
    requires TakesLines(Lines("\nab"), 2, k)
    ensures var ls := Lines("\nab"); k == |ls| && CostOfFirst(ls, k) == 2 && !(JoinLines(ls, 1, k) <= "\nab")
  {
    var ls := Lines("\nab");
    LinesOfOneLine("ab");
    assert "\nab"[1..] == "ab";
    assert ls == ["", "ab"];
    assert LeadingEmpty(ls) == 1 + LeadingEmpty(ls[1..]);
    assert CostOfFirst(ls, 2) == CostOfFirst(ls, 1) + LineCost("ab") && CostOfFirst(ls, 1) == LineCost("");
    PrefixExactly("\nab", k);
  }
}
