/**
 Budgeted packing of ranked chunks (internal/core/assembler.go).

 Scores are reals. `sort.Slice` leaves the order of equal scores open, so sorting is a parameter that
 may be any function returning the same chunks in descending order. The three store queries made by the
 structural expansion are parameters too, each of which may fail.
 */
module Assembling {
  import opened Options
  import opened TextLines
  import opened Truncating

  datatype Scored = Scored(
    chunkId: int,
    score: real,
    path: string,
    symbolName: string,
    kind: string,
    startLine: int,
    endLine: int,
    content: string,
    tokenCount: int
  )

  /** Store queries: symbol of a chunk (0 if none), neighbours of a symbol, chunk of a symbol. */
  datatype GraphView = GraphView(
    symbolOfChunk: int -> int,
    neighbors: int -> Option<seq<int>>,
    chunkOfSymbol: int -> Option<int>
  )

  datatype Package = Package(
    chunks: seq<Scored>,
    totalTokens: int,
    strategy: string,
    truncated: bool,
    budgetOverflow: bool,
    overflowTokens: int
  )

  function Tokens(s: seq<Scored>): int {
    if s == [] then 0 else Tokens(s[..|s| - 1]) + s[|s| - 1].tokenCount
  }

  lemma {:induction false} TokensConcat(a: seq<Scored>, b: seq<Scored>)
    ensures Tokens(a + b) == Tokens(a) + Tokens(b)
  {
    if b == [] {
      assert a + b == a;
    } else {
      assert (a + b)[..|a + b| - 1] == a + b[..|b| - 1];
      TokensConcat(a, b[..|b| - 1]);
    }
  }

  ghost predicate IsSortOf(sorted: seq<Scored>, s: seq<Scored>) {
    && multiset(sorted) == multiset(s)
    && forall i, j :: 0 <= i < j < |sorted| ==> sorted[i].score >= sorted[j].score
  }

  ghost predicate Sorts(sort: seq<Scored> -> seq<Scored>) {
    forall s :: IsSortOf(sort(s), s)
  }

  // ---- Line overlap ----

  function SharedLines(a: Scored, b: Scored): int {
    var lo := if a.startLine >= b.startLine then a.startLine else b.startLine;
    var hi := if a.endLine <= b.endLine then a.endLine else b.endLine;
    if lo > hi then 0 else hi - lo + 1
  }

  /** The chunk lies for more than half of its lines inside the other one. */
  predicate MostlyInside(c: Scored, other: Scored) {
    && c.path != "" && other.path == c.path
    && 2 * SharedLines(c, other) > c.endLine - c.startLine + 1 > 0
  }

  predicate Overlaps(c: Scored, selected: seq<Scored>) {
    exists i :: 0 <= i < |selected| && MostlyInside(c, selected[i])
  }

  function LineRange(lo: int, hi: int): (r: set<int>)
    ensures forall l :: l in r <==> lo <= l <= hi
    ensures |r| == if lo > hi then 0 else hi - lo + 1
    decreases hi - lo
  {
    if lo > hi then {} else LineRange(lo, hi - 1) + {hi}
  }

  /** The number the source computes is the number of line numbers that both chunks cover. */
  lemma SharedLinesCounts(a: Scored, b: Scored)
    ensures SharedLines(a, b) == |LineRange(a.startLine, a.endLine) * LineRange(b.startLine, b.endLine)|
  {
    var lo := if a.startLine >= b.startLine then a.startLine else b.startLine;
    var hi := if a.endLine <= b.endLine then a.endLine else b.endLine;
    SetsMeet(LineRange(a.startLine, a.endLine), LineRange(b.startLine, b.endLine), LineRange(lo, hi),
             a.startLine, a.endLine, b.startLine, b.endLine);
  }

  lemma SetsMeet(r: set<int>, s: set<int>, meet: set<int>, a: int, b: int, c: int, d: int)
    requires forall l :: l in r <==> a <= l <= b
    requires forall l :: l in s <==> c <= l <= d
    requires forall l :: l in meet <==> (a <= l && c <= l) && (l <= b && l <= d)
    ensures r * s == meet
  {
    assert forall l :: l in r * s <==> l in meet;
  }

  /** A chunk lies mostly inside another of its file if that covers more than half of its line numbers. */
  lemma MostlyInsideCounts(c: Scored, other: Scored)
    ensures MostlyInside(c, other) <==>
            && c.path != "" && other.path == c.path
            && var lines := LineRange(c.startLine, c.endLine);
            2 * |lines * LineRange(other.startLine, other.endLine)| > |lines|
  {
    SharedLinesCounts(c, other);
  }

  method HasLineOverlap(candidate: Scored, selected: seq<Scored>) returns (r: bool)
    ensures r <==> Overlaps(candidate, selected)
  {
    if candidate.path == "" {
      return false;
    }
    var candLines := candidate.endLine - candidate.startLine + 1;
    if candLines <= 0 {
      return false;
    }
    for i := 0 to |selected|
      invariant !Overlaps(candidate, selected[..i])
    {
      var s := selected[i];
      assert selected[..i + 1] == selected[..i] + [s];
      if s.path != candidate.path {
        continue;
      }
      var overlapStart := if candidate.startLine >= s.startLine then candidate.startLine else s.startLine;
      var overlapEnd := if candidate.endLine <= s.endLine then candidate.endLine else s.endLine;
      if overlapStart > overlapEnd {
        continue;
      }
      var overlap := overlapEnd - overlapStart + 1;
      if overlap as real / candLines as real > 0.5 {
        HalfAsReal(overlap, candLines);
        assert MostlyInside(candidate, s);
        return true;
      }
      HalfAsReal(overlap, candLines);
    }
    assert selected[..|selected|] == selected;
    return false;
  }

  lemma HalfAsReal(overlap: int, lines: int)
    requires lines > 0
    ensures overlap as real / lines as real > 0.5 <==> 2 * overlap > lines
  {
    var q, n := overlap as real / lines as real, lines as real;
    assert q * n == overlap as real;
    assert (q - 0.5) * n == overlap as real - 0.5 * n;
    assert q > 0.5 ==> (q - 0.5) * n > 0.0;
    assert q <= 0.5 ==> (0.5 - q) * n >= 0.0;
  }

  // ---- Greedy packing ----

  datatype Packing = Packing(selected: seq<Scored>, remaining: int, truncated: bool, overflowed: bool)

  /** `t` is `c` cut down to the budget, after `k` of its lines. */
  ghost predicate IsTruncation(c: Scored, budget: int, t: Scored, k: nat) {
    var ls := Lines(c.content);
    && TakesLines(ls, budget, k)
    && t == c.(content := JoinLines(ls, LeadingEmpty(ls), k), tokenCount := CostOfFirst(ls, k))
  }

  ghost predicate Increasing(picks: seq<nat>, bound: nat) {
    && (forall i :: 0 <= i < |picks| ==> picks[i] < bound)
    && forall i, j :: 0 <= i < j < |picks| ==> picks[i] < picks[j]
  }

  /** How many picks come before position `k`. */
  function Before(picks: seq<nat>, k: nat): (n: nat)
    ensures n <= |picks|
  {
    if picks == [] then 0
    else if picks[|picks| - 1] < k then |picks|
    else Before(picks[..|picks| - 1], k)
  }

  lemma {:induction false} BeforeAt(picks: seq<nat>, bound: nat, k: nat, i: nat)
    requires Increasing(picks, bound) && i <= |picks|
    requires i > 0 ==> picks[i - 1] < k
    requires i < |picks| ==> picks[i] >= k
    ensures Before(picks, k) == i
    decreases |picks|
  {
    if i < |picks| {
      BeforeAt(picks[..|picks| - 1], bound, k, i);
    }
  }

  /**
   Whole chunks taken in rank order while budget was left, none mostly inside an earlier one, accounted to
   the token; only the first has to fit.
   */
  ghost predicate Chosen(seen: seq<Scored>, budget: int, p: Packing, picks: seq<nat>) {
    && Increasing(picks, |seen|) && |picks| == |p.selected|
    && (forall i :: 0 <= i < |picks| ==> p.selected[i] == seen[picks[i]])
    && (forall i :: 0 <= i < |picks| ==> !Overlaps(p.selected[i], p.selected[..i]) && Tokens(p.selected[..i]) < budget)
    && (picks != [] ==> p.selected[0].tokenCount <= budget)
    && Tokens(p.selected) == budget - p.remaining
    && (p.overflowed <==> p.remaining < 0 && picks != [])
  }

  /** How many candidates the loop looked at: all, or up to the pick that used up the budget. */
  function Examined(seen: seq<Scored>, p: Packing, picks: seq<nat>): int {
    if p.remaining > 0 then |seen| else if picks == [] then 0 else picks[|picks| - 1] + 1
  }

  /** A candidate that was looked at is passed over only because it overlaps an earlier pick. */
  ghost predicate Complete(seen: seq<Scored>, p: Packing, picks: seq<nat>)
    requires |picks| == |p.selected|
  {
    forall k: nat :: k < |seen| && k < Examined(seen, p, picks) && k !in picks ==>
                       Overlaps(seen[k], p.selected[..Before(picks, k)])
  }

  /** The outcome of the packing loop over the candidates `seen`. */
  ghost predicate Packed(seen: seq<Scored>, budget: int, p: Packing, picks: seq<nat>, cut: nat) {
    if p.truncated then
      && |p.selected| == 1 && picks == [0] && seen != [] && p.remaining == 0 && !p.overflowed
      && seen[0].tokenCount > budget > 0
      && IsTruncation(seen[0], budget, p.selected[0], cut)
    else
      Chosen(seen, budget, p, picks) && Complete(seen, p, picks)
  }

  // Folded for the running code: only `OpenPacked` reaches the end of the lock.

  ghost predicate PackedFolded(seen: seq<Scored>, budget: int, p: Packing, picks: seq<nat>, cut: nat, lock: nat) {
    if lock == 0 then Packed(seen, budget, p, picks, cut) else PackedFolded(seen, budget, p, picks, cut, lock - 1)
  }

  ghost predicate IsPacked(seen: seq<Scored>, budget: int, p: Packing, picks: seq<nat>, cut: nat) {
    PackedFolded(seen, budget, p, picks, cut, 3 + |picks|)
  }

  lemma {:induction false} UnfoldPacked(seen: seq<Scored>, budget: int, p: Packing, picks: seq<nat>, cut: nat,
                                        lock: nat)
    ensures PackedFolded(seen, budget, p, picks, cut, lock) <==> Packed(seen, budget, p, picks, cut)
  {
    if lock > 0 {
      UnfoldPacked(seen, budget, p, picks, cut, lock - 1);
    }
  }

  lemma OpenPacked(seen: seq<Scored>, budget: int, p: Packing, picks: seq<nat>, cut: nat)
    ensures IsPacked(seen, budget, p, picks, cut) <==> Packed(seen, budget, p, picks, cut)
  {
    UnfoldPacked(seen, budget, p, picks, cut, 3 + |picks|);
  }

  lemma NothingIsPacked(budget: int)
    ensures IsPacked([], budget, Packing([], budget, false, false), [], 0)
  {
    OpenPacked([], budget, Packing([], budget, false, false), [], 0);
  }

  method TruncateChunk(c: Scored, budget: int) returns (t: Scored, ghost k: nat)
    ensures IsTruncation(c, budget, t, k)
    ensures t == c.(content := t.content, tokenCount := t.tokenCount)
  {
    var text, tokens;
    text, tokens, k := TruncateText(c.content, budget);
    t := c.(content := text, tokenCount := tokens);
  }

  lemma SkipKeepsComplete(seen: seq<Scored>, c: Scored, p: Packing, picks: seq<nat>)
    requires Increasing(picks, |seen|) && |picks| == |p.selected| && Complete(seen, p, picks)
    requires p.remaining > 0 && Overlaps(c, p.selected)
    ensures Complete(seen + [c], p, picks)
  {
    var more := seen + [c];
    BeforeAt(picks, |seen|, |seen|, |picks|);
    assert p.selected[..|picks|] == p.selected;
    forall k: nat | k < |more| && k !in picks ensures Overlaps(more[k], p.selected[..Before(picks, k)]) {
      assert k < |seen| ==> more[k] == seen[k];
    }
  }

  lemma SkipKeepsPacked(seen: seq<Scored>, c: Scored, budget: int, p: Packing, picks: seq<nat>, cut: nat)
    requires IsPacked(seen, budget, p, picks, cut) && p.remaining > 0 && Overlaps(c, p.selected)
    ensures IsPacked(seen + [c], budget, p, picks, cut)
  {
    OpenPacked(seen, budget, p, picks, cut);
    OpenPacked(seen + [c], budget, p, picks, cut);
    SkipKeepsComplete(seen, c, p, picks);
  }

  lemma {:induction false} TakeKeepsChosen(seen: seq<Scored>, c: Scored, budget: int, p: Packing, q: Packing,
                                           picks: seq<nat>)
    requires Chosen(seen, budget, p, picks)
    requires p.remaining > 0 && !Overlaps(c, p.selected)
    requires c.tokenCount <= p.remaining || p.selected != []
    requires q == Packing(p.selected + [c], p.remaining - c.tokenCount, p.truncated,
                          p.overflowed || c.tokenCount > p.remaining)
    ensures Chosen(seen + [c], budget, q, picks + [|seen|])
  {
    TokensConcat(p.selected, [c]);
    assert Tokens([c]) == Tokens([]) + c.tokenCount;
    assert q.selected[..|p.selected|] == p.selected;
    PickSnoc(seen, c, p.selected, picks);
    forall i | 0 <= i <= |picks| ensures !Overlaps(q.selected[i], q.selected[..i]) && Tokens(q.selected[..i]) < budget {
      SamePart(p.selected, c, i);
    }
  }

  lemma PickSnoc(seen: seq<Scored>, c: Scored, selected: seq<Scored>, picks: seq<nat>)
    requires Increasing(picks, |seen|) && |picks| == |selected|
    requires forall i :: 0 <= i < |picks| ==> selected[i] == seen[picks[i]]
    ensures var more, morePicks := selected + [c], picks + [|seen|];
      Increasing(morePicks, |seen + [c]|)
      && forall i :: 0 <= i < |morePicks| ==> more[i] == (seen + [c])[morePicks[i]]
  {}

  lemma SamePart(selected: seq<Scored>, c: Scored, i: nat)
    requires i <= |selected|
    ensures (selected + [c])[..i] == selected[..i] && selected[..|selected|] == selected
  {}

  lemma TakeKeepsComplete(seen: seq<Scored>, c: Scored, p: Packing, q: Packing, picks: seq<nat>)
    requires Increasing(picks, |seen|) && |picks| == |p.selected| && Complete(seen, p, picks) && p.remaining > 0
    requires q.selected == p.selected + [c]
    ensures Complete(seen + [c], q, picks + [|seen|])
  {
    var more, morePicks := seen + [c], picks + [|seen|];
    forall k: nat | k < |more| && k !in morePicks ensures Overlaps(more[k], q.selected[..Before(morePicks, k)]) {
      assert morePicks[|picks|] == |seen|;
      assert k < |seen| && k !in picks;
      assert morePicks[..|picks|] == picks;
      assert q.selected[..Before(picks, k)] == p.selected[..Before(picks, k)];
    }
  }

  lemma TakeKeepsPacked(seen: seq<Scored>, c: Scored, budget: int, p: Packing, q: Packing, picks: seq<nat>, cut: nat)
    requires IsPacked(seen, budget, p, picks, cut)
    requires p.remaining > 0 && !Overlaps(c, p.selected)
    requires c.tokenCount <= p.remaining || p.selected != []
    requires q == Packing(p.selected + [c], p.remaining - c.tokenCount, p.truncated,
                          p.overflowed || c.tokenCount > p.remaining)
    ensures IsPacked(seen + [c], budget, q, picks + [|seen|], cut)
  {
    OpenPacked(seen, budget, p, picks, cut);
    OpenPacked(seen + [c], budget, q, picks + [|seen|], cut);
    TakeKeepsChosen(seen, c, budget, p, q, picks);
    TakeKeepsComplete(seen, c, p, q, picks);
  }

  method Pack(ranked: seq<Scored>, budget: int) returns (p: Packing, ghost picks: seq<nat>, ghost cut: nat)
    ensures IsPacked(ranked, budget, p, picks, cut)
    ensures exists ps, k :: IsPacked(ranked, budget, p, ps, k)
    ensures !p.truncated ==> Tokens(p.selected) == budget - p.remaining
  {
    p := Packing([], budget, false, false);
    picks, cut := [], 0;
    NothingIsPacked(budget);
    for n := 0 to |ranked|
      invariant IsPacked(ranked[..n], budget, p, picks, cut)
    {
      if p.remaining <= 0 {
        StopKeepsPacked(ranked, n, budget, p, picks, cut);
        break;
      }
      assert ranked[..n + 1] == ranked[..n] + [ranked[n]];
      p, picks, cut := PackOne(ranked[..n], ranked[n], budget, p, picks, cut);
    }
    assert ranked[..|ranked|] == ranked;
    OpenPacked(ranked, budget, p, picks, cut);
  }

  /** One candidate, while budget is left. */
  method PackOne(ghost seen: seq<Scored>, c: Scored, budget: int, p: Packing, ghost picks: seq<nat>, ghost cut: nat)
    returns (q: Packing, ghost morePicks: seq<nat>, ghost newCut: nat)
    requires IsPacked(seen, budget, p, picks, cut) && p.remaining > 0
    ensures IsPacked(seen + [c], budget, q, morePicks, newCut)
  {
    q, morePicks, newCut := p, picks, cut;
    var overlaps := HasLineOverlap(c, p.selected);
    if overlaps {
      SkipKeepsPacked(seen, c, budget, p, picks, cut);
      return;
    }
    if c.tokenCount > p.remaining && |p.selected| == 0 {
      var t;
      t, newCut := TruncateChunk(c, budget);
      morePicks := [0];
      q := Packing([t], 0, true, p.overflowed);
      NothingYet(seen, budget, p, picks, cut);
      TruncationIsPacked(seen, c, budget, q, newCut);
      return;
    }
    q := Packing(p.selected + [c], p.remaining - c.tokenCount, p.truncated, p.overflowed || c.tokenCount > p.remaining);
    TakeKeepsPacked(seen, c, budget, p, q, picks, cut);
    morePicks := picks + [|seen|];
  }

  /** With a budget the first candidate is taken, since there is nothing it could overlap. */
  lemma FirstIsTaken(seen: seq<Scored>, budget: int, p: Packing, picks: seq<nat>)
    requires Chosen(seen, budget, p, picks) && Complete(seen, p, picks)
    requires seen != [] && budget > 0
    ensures picks != [] && picks[0] == 0
  {
    BeforeAt(picks, |seen|, 0, 0);
    assert !Overlaps(seen[0], p.selected[..0]);
    assert picks == [] ==> p.remaining == budget;
    assert 0 in picks;
  }

  /** Before the first pick the whole budget is left, and nothing was passed over. */
  lemma NothingYet(seen: seq<Scored>, budget: int, p: Packing, picks: seq<nat>, cut: nat)
    requires IsPacked(seen, budget, p, picks, cut) && p.remaining > 0 && p.selected == []
    ensures seen == [] && p.remaining == budget && !p.overflowed
  {
    OpenPacked(seen, budget, p, picks, cut);
    if seen != [] {
      FirstIsTaken(seen, budget, p, picks);
    }
  }

  lemma TruncationIsPacked(seen: seq<Scored>, c: Scored, budget: int, q: Packing, cut: nat)
    requires seen == [] && c.tokenCount > budget > 0 && q.truncated && q.remaining == 0 && !q.overflowed
    requires |q.selected| == 1 && IsTruncation(c, budget, q.selected[0], cut)
    ensures IsPacked(seen + [c], budget, q, [0], cut)
  {
    OpenPacked(seen + [c], budget, q, [0], cut);
  }

  lemma StopKeepsPacked(ranked: seq<Scored>, n: nat, budget: int, p: Packing, picks: seq<nat>, cut: nat)
    requires n < |ranked| && p.remaining <= 0
    requires IsPacked(ranked[..n], budget, p, picks, cut)
    ensures IsPacked(ranked, budget, p, picks, cut)
  {
    OpenPacked(ranked[..n], budget, p, picks, cut);
    OpenPacked(ranked, budget, p, picks, cut);
    if !p.truncated {
      StopKeepsChosen(ranked, n, budget, p, picks);
    }
  }

  lemma StopKeepsChosen(ranked: seq<Scored>, n: nat, budget: int, p: Packing, picks: seq<nat>)
    requires n < |ranked| && p.remaining <= 0
    requires Chosen(ranked[..n], budget, p, picks) && Complete(ranked[..n], p, picks)
    ensures Chosen(ranked, budget, p, picks) && Complete(ranked, p, picks)
  {
    forall k: nat | k < |ranked| && k < Examined(ranked, p, picks) && k !in picks
      ensures Overlaps(ranked[k], p.selected[..Before(picks, k)])
    {
      assert ranked[..n][k] == ranked[k];
    }
  }

  lemma SamePrefix(seen: seq<Scored>, p: Packing, ps: seq<nat>, q: Packing, qs: seq<nat>, i: nat)
    requires |ps| == |p.selected| && |qs| == |q.selected| && i <= |ps| && i <= |qs| && ps[..i] == qs[..i]
    requires forall j :: 0 <= j < |ps| ==> ps[j] < |seen| && p.selected[j] == seen[ps[j]]
    requires forall j :: 0 <= j < |qs| ==> qs[j] < |seen| && q.selected[j] == seen[qs[j]]
    ensures p.selected[..i] == q.selected[..i]
  {
    forall j | 0 <= j < i ensures p.selected[j] == q.selected[j] {
      assert ps[j] == ps[..i][j] == qs[..i][j] == qs[j];
    }
  }

  lemma NotAmong(picks: seq<nat>, bound: nat, a: nat, i: nat)
    requires Increasing(picks, bound) && i <= |picks|
    requires (i > 0 ==> picks[i - 1] < a) && (i < |picks| ==> picks[i] > a)
    ensures a !in picks && Before(picks, a) == i
  {
    BeforeAt(picks, bound, a, i);
    forall j | 0 <= j < |picks| ensures picks[j] != a {
      assert j < i ==> picks[j] <= picks[i - 1];
    }
  }

  /** Between two picks, and after the last one as long as budget is left, everything was looked at. */
  lemma {:induction false} PassedOver(seen: seq<Scored>, budget: int, q: Packing, qs: seq<nat>, a: nat, i: nat)
    requires Chosen(seen, budget, q, qs) && Complete(seen, q, qs) && a < |seen| && i <= |qs|
    requires (i > 0 ==> qs[i - 1] < a) && (i < |qs| ==> qs[i] > a)
    requires Tokens(q.selected[..i]) < budget
    ensures Overlaps(seen[a], q.selected[..i])
  {
    NotAmong(qs, |seen|, a, i);
    assert i == |qs| ==> q.selected[..i] == q.selected;
    assert i < |qs| ==> qs[i] <= qs[|qs| - 1];
  }

  /** Two packings that agree so far: the next pick of one is no later than that of the other. */
  lemma NextPickNotLater(seen: seq<Scored>, budget: int, p: Packing, ps: seq<nat>, q: Packing, qs: seq<nat>, i: nat)
    requires Chosen(seen, budget, p, ps) && Chosen(seen, budget, q, qs) && Complete(seen, q, qs)
    requires i < |ps| && i <= |qs| && ps[..i] == qs[..i]
    ensures i < |qs| && qs[i] <= ps[i]
  {
    SamePrefix(seen, p, ps, q, qs, i);
    assert i > 0 ==> qs[i - 1] == qs[..i][i - 1] == ps[..i][i - 1] == ps[i - 1];
    assert !Overlaps(p.selected[i], p.selected[..i]) && Tokens(p.selected[..i]) < budget;
    if i == |qs| || qs[i] > ps[i] {
      PassedOver(seen, budget, q, qs, ps[i], i);
    }
  }

  lemma LongerPrefix(ps: seq<nat>, qs: seq<nat>, i: nat)
    requires i < |ps| && i < |qs| && ps[..i] == qs[..i] && ps[i] == qs[i]
    ensures ps[..i + 1] == qs[..i + 1]
  {
    assert ps[..i + 1] == ps[..i] + [ps[i]] && qs[..i + 1] == qs[..i] + [qs[i]];
  }

  lemma {:induction false} PicksAgree(seen: seq<Scored>, budget: int, p: Packing, ps: seq<nat>,
                                      q: Packing, qs: seq<nat>, i: nat)
    requires Chosen(seen, budget, p, ps) && Complete(seen, p, ps)
    requires Chosen(seen, budget, q, qs) && Complete(seen, q, qs)
    requires i <= |ps|
    ensures i <= |qs| && ps[..i] == qs[..i]
  {
    if i > 0 {
      PicksAgree(seen, budget, p, ps, q, qs, i - 1);
      NextPickNotLater(seen, budget, p, ps, q, qs, i - 1);
      NextPickNotLater(seen, budget, q, qs, p, ps, i - 1);
      LongerPrefix(ps, qs, i - 1);
    }
  }

  /** The packing is a truncation exactly when the first candidate is too long for the budget. */
  lemma TruncatesExactly(seen: seq<Scored>, budget: int, p: Packing, picks: seq<nat>, cut: nat)
    requires IsPacked(seen, budget, p, picks, cut)
    ensures p.truncated <==> seen != [] && seen[0].tokenCount > budget > 0
  {
    OpenPacked(seen, budget, p, picks, cut);
    if !p.truncated && seen != [] && budget > 0 {
      FirstIsTaken(seen, budget, p, picks);
    }
  }

  lemma {:induction false} ChosenUnique(seen: seq<Scored>, budget: int, p: Packing, ps: seq<nat>,
                                        q: Packing, qs: seq<nat>)
    requires Chosen(seen, budget, p, ps) && Complete(seen, p, ps)
    requires Chosen(seen, budget, q, qs) && Complete(seen, q, qs)
    ensures ps == qs && p.selected == q.selected && p.remaining == q.remaining && p.overflowed == q.overflowed
  {
    PicksAgree(seen, budget, p, ps, q, qs, |ps|);
    PicksAgree(seen, budget, q, qs, p, ps, |qs|);
    SamePicks(seen, p, ps, q, qs);
  }

  lemma SamePicks(seen: seq<Scored>, p: Packing, ps: seq<nat>, q: Packing, qs: seq<nat>)
    requires |ps| == |p.selected| && |qs| == |q.selected| && |ps| == |qs| && ps[..|ps|] == qs[..|qs|]
    requires forall j :: 0 <= j < |ps| ==> ps[j] < |seen| && p.selected[j] == seen[ps[j]]
    requires forall j :: 0 <= j < |qs| ==> qs[j] < |seen| && q.selected[j] == seen[qs[j]]
    ensures ps == qs && p.selected == q.selected
  {
    assert ps[..|ps|] == ps && qs[..|qs|] == qs;
  }

  /** The candidates in rank order and the budget fix the packing. */
  lemma PackedUnique(seen: seq<Scored>, budget: int, p: Packing, ps: seq<nat>, c: nat, q: Packing, qs: seq<nat>, d: nat)
    requires IsPacked(seen, budget, p, ps, c) && IsPacked(seen, budget, q, qs, d)
    ensures p == q && ps == qs
  {
    OpenPacked(seen, budget, p, ps, c);
    OpenPacked(seen, budget, q, qs, d);
    TruncatesExactly(seen, budget, p, ps, c);
    TruncatesExactly(seen, budget, q, qs, d);
    if p.truncated {
      TakesLinesUnique(Lines(seen[0].content), budget, c, d);
    } else {
      ChosenUnique(seen, budget, p, ps, q, qs);
    }
  }

  // ---- Structural expansion ----

  function Ids(s: seq<Scored>): set<int> {
    set c | c in s :: c.chunkId
  }

  ghost predicate DistinctIds(s: seq<Scored>) {
    forall i, j :: 0 <= i < j < |s| ==> s[i].chunkId != s[j].chunkId
  }

  /** Symbol `sym` is a neighbour of the symbol that the store names for chunk `s`, and lies in chunk `id`. */
  ghost predicate Leads(view: GraphView, s: Scored, sym: int, id: int) {
    var from := view.symbolOfChunk(s.chunkId);
    && from != 0
    && view.neighbors(from).Some? && sym in view.neighbors(from).value
    && view.chunkOfSymbol(sym) == Some(id)
  }

  ghost predicate Reached(view: GraphView, selected: seq<Scored>, id: int) {
    exists s, sym :: s in selected && Leads(view, s, sym, id)
  }

  /** `found` lists each candidate that is reached and not selected, once. */
  ghost predicate Fresh(view: GraphView, selected: seq<Scored>, candidates: seq<Scored>, found: seq<Scored>) {
    && DistinctIds(found)
    && forall c :: c in found ==> c in candidates && c.chunkId !in Ids(selected) && Reached(view, selected, c.chunkId)
  }

  method CandidateMap(candidates: seq<Scored>) returns (m: map<int, Scored>)
    ensures m.Keys == Ids(candidates)
    ensures forall id :: id in m ==> m[id] in candidates && m[id].chunkId == id
  {
    m := map[];
    for i := 0 to |candidates|
      invariant m.Keys == Ids(candidates[..i])
      invariant forall id :: id in m ==> m[id] in candidates && m[id].chunkId == id
    {
      assert candidates[..i + 1] == candidates[..i] + [candidates[i]];
      m := m[candidates[i].chunkId := candidates[i]];
    }
    assert candidates[..|candidates|] == candidates;
  }

  lemma IdsSnoc(s: seq<Scored>, c: Scored)
    ensures Ids(s + [c]) == Ids(s) + {c.chunkId}
  {
    assert forall x :: x in s + [c] <==> x in s || x == c;
    assert c in s + [c];
  }

  lemma FreshSnoc(view: GraphView, selected: seq<Scored>, candidates: seq<Scored>, found: seq<Scored>, c: Scored)
    requires Fresh(view, selected, candidates, found)
    requires c in candidates && c.chunkId !in Ids(selected) + Ids(found) && Reached(view, selected, c.chunkId)
    ensures Fresh(view, selected, candidates, found + [c])
    ensures Ids(found + [c]) == Ids(found) + {c.chunkId}
  {
    IdsSnoc(found, c);
    forall i | 0 <= i < |found| ensures found[i].chunkId != c.chunkId {
      assert found[i] in found && found[i].chunkId in Ids(found);
    }
  }

  /** The inner loop: the neighbours of one selected chunk's symbol. */
  method CollectFrom(view: GraphView, s: Scored, symbols: seq<int>, candidateMap: map<int, Scored>,
                     ghost selected: seq<Scored>, ghost candidates: seq<Scored>,
                     found0: seq<Scored>, selectedSet0: set<int>)
    returns (found: seq<Scored>, selectedSet: set<int>)
    requires s in selected && view.symbolOfChunk(s.chunkId) != 0
    requires view.neighbors(view.symbolOfChunk(s.chunkId)) == Some(symbols)
    requires forall id :: id in candidateMap ==> candidateMap[id] in candidates && candidateMap[id].chunkId == id
    requires Fresh(view, selected, candidates, found0) && selectedSet0 == Ids(selected) + Ids(found0)
    ensures Fresh(view, selected, candidates, found) && selectedSet == Ids(selected) + Ids(found)
    ensures selectedSet0 <= selectedSet
    ensures forall sym, id :: Leads(view, s, sym, id) && id in candidateMap ==> id in selectedSet
  {
    found, selectedSet := found0, selectedSet0;
    for j := 0 to |symbols|
      invariant Fresh(view, selected, candidates, found) && selectedSet == Ids(selected) + Ids(found)
      invariant selectedSet0 <= selectedSet
      invariant forall sym, id ::
                  sym in symbols[..j] && Leads(view, s, sym, id) && id in candidateMap ==> id in selectedSet
    {
      var chunk := view.chunkOfSymbol(symbols[j]);
      assert symbols[..j + 1] == symbols[..j] + [symbols[j]];
      if chunk.Some? && chunk.value in candidateMap && chunk.value !in selectedSet {
        assert Leads(view, s, symbols[j], chunk.value);
        FreshSnoc(view, selected, candidates, found, candidateMap[chunk.value]);
        found := found + [candidateMap[chunk.value]];
        selectedSet := selectedSet + {chunk.value};
      }
    }
    assert symbols[..|symbols|] == symbols;
  }

  method CollectNeighbors(view: GraphView, selected: seq<Scored>, candidates: seq<Scored>)
    returns (found: seq<Scored>)
    ensures Collected(view, selected, candidates, found)
  {
    var selectedSet := Ids(selected);
    var candidateMap := CandidateMap(candidates);
    found := [];
    for i := 0 to |selected|
      invariant Fresh(view, selected, candidates, found) && selectedSet == Ids(selected) + Ids(found)
      invariant forall s, sym, id ::
                  s in selected[..i] && Leads(view, s, sym, id) && id in candidateMap ==> id in selectedSet
    {
      var s := selected[i];
      assert selected[..i + 1] == selected[..i] + [s];
      var symbol := view.symbolOfChunk(s.chunkId);
      if symbol == 0 {
        continue;
      }
      var neighbors := view.neighbors(symbol);
      if neighbors == None {
        continue;
      }
      found, selectedSet :=
        CollectFrom(view, s, neighbors.value, candidateMap, selected, candidates, found, selectedSet);
    }
    assert selected[..|selected|] == selected;
  }

  /** Among the first `n`, exactly those that fit what the ones taken before them left. */
  ghost predicate FitsGreedily(sorted: seq<Scored>, n: nat, budget: int, expanded: seq<Scored>, picks: seq<nat>)
    requires n <= |sorted|
  {
    && Increasing(picks, n) && |picks| == |expanded|
    && (forall i :: 0 <= i < |picks| ==> expanded[i] == sorted[picks[i]])
    && (forall i :: 0 <= i < |picks| ==> !NoRoom(expanded[i], LeftAfter(budget, expanded, i)))
    && (forall k: nat :: k < n && k !in picks ==> NoRoom(sorted[k], LeftAfter(budget, expanded, Before(picks, k))))
  }

  ghost predicate GreedyFolded(sorted: seq<Scored>, n: nat, budget: int, expanded: seq<Scored>, picks: seq<nat>,
                               lock: nat)
    requires n <= |sorted|
  {
    if lock == 0 then FitsGreedily(sorted, n, budget, expanded, picks)
    else GreedyFolded(sorted, n, budget, expanded, picks, lock - 1)
  }

  ghost predicate IsGreedy(sorted: seq<Scored>, n: nat, budget: int, expanded: seq<Scored>, picks: seq<nat>)
    requires n <= |sorted|
  {
    GreedyFolded(sorted, n, budget, expanded, picks, 3 + |picks|)
  }

  lemma {:induction false} UnfoldGreedy(sorted: seq<Scored>, n: nat, budget: int, expanded: seq<Scored>,
                                        picks: seq<nat>, lock: nat)
    requires n <= |sorted|
    ensures GreedyFolded(sorted, n, budget, expanded, picks, lock) <==> FitsGreedily(sorted, n, budget, expanded, picks)
  {
    if lock > 0 {
      UnfoldGreedy(sorted, n, budget, expanded, picks, lock - 1);
    }
  }

  lemma OpenGreedy(sorted: seq<Scored>, n: nat, budget: int, expanded: seq<Scored>, picks: seq<nat>)
    requires n <= |sorted|
    ensures IsGreedy(sorted, n, budget, expanded, picks) <==> FitsGreedily(sorted, n, budget, expanded, picks)
  {
    UnfoldGreedy(sorted, n, budget, expanded, picks, 3 + |picks|);
  }

  function LeftAfter(budget: int, expanded: seq<Scored>, i: nat): int
    requires i <= |expanded|
  {
    budget - Tokens(expanded[..i])
  }

  predicate NoRoom(c: Scored, left: int) {
    left <= 0 || c.tokenCount > left
  }

  lemma PassNeighbor(sorted: seq<Scored>, n: nat, budget: int, expanded: seq<Scored>, picks: seq<nat>)
    requires n < |sorted| && IsGreedy(sorted, n, budget, expanded, picks)
    requires NoRoom(sorted[n], budget - Tokens(expanded))
    ensures IsGreedy(sorted, n + 1, budget, expanded, picks)
  {
    OpenGreedy(sorted, n, budget, expanded, picks);
    OpenGreedy(sorted, n + 1, budget, expanded, picks);
    BeforeAt(picks, n, n, |picks|);
    assert expanded[..|picks|] == expanded;
  }

  lemma TakeNeighbor(sorted: seq<Scored>, n: nat, budget: int, expanded: seq<Scored>, picks: seq<nat>)
    requires n < |sorted| && IsGreedy(sorted, n, budget, expanded, picks)
    requires !NoRoom(sorted[n], budget - Tokens(expanded))
    ensures IsGreedy(sorted, n + 1, budget, expanded + [sorted[n]], picks + [n])
    ensures Tokens(expanded + [sorted[n]]) == Tokens(expanded) + sorted[n].tokenCount
  {
    var more, morePicks := expanded + [sorted[n]], picks + [n];
    OpenGreedy(sorted, n, budget, expanded, picks);
    OpenGreedy(sorted, n + 1, budget, more, morePicks);
    TokensConcat(expanded, [sorted[n]]);
    assert Tokens([sorted[n]]) == Tokens([]) + sorted[n].tokenCount;
    forall i | 0 <= i < |morePicks| ensures !NoRoom(more[i], LeftAfter(budget, more, i)) {
      TakenFits(expanded, sorted[n], budget, i);
    }
    forall k: nat | k < n + 1 && k !in morePicks
      ensures NoRoom(sorted[k], LeftAfter(budget, more, Before(morePicks, k)))
    {
      BeforeSnoc(picks, n, k);
      LeftSnoc(expanded, sorted[n], budget, Before(picks, k));
    }
  }

  lemma LeftSnoc(expanded: seq<Scored>, c: Scored, budget: int, i: nat)
    requires i <= |expanded|
    ensures LeftAfter(budget, expanded + [c], i) == LeftAfter(budget, expanded, i)
  {
    assert (expanded + [c])[..i] == expanded[..i];
  }

  lemma TakenFits(expanded: seq<Scored>, c: Scored, budget: int, i: nat)
    requires i <= |expanded| && !NoRoom(c, budget - Tokens(expanded))
    requires i < |expanded| ==> !NoRoom(expanded[i], LeftAfter(budget, expanded, i))
    ensures !NoRoom((expanded + [c])[i], LeftAfter(budget, expanded + [c], i))
  {
    LeftSnoc(expanded, c, budget, i);
    assert i == |expanded| ==> expanded[..i] == expanded;
  }

  /** A pick at the end comes after position `k`, so it does not count. */
  lemma BeforeSnoc(picks: seq<nat>, n: nat, k: nat)
    requires k <= n && k !in picks + [n]
    ensures k < n && k !in picks && Before(picks + [n], k) == Before(picks, k)
  {
    var more := picks + [n];
    assert more[|picks|] == n && more[..|picks|] == picks;
  }

  lemma {:induction false} RestHasNoRoom(sorted: seq<Scored>, n: nat, budget: int, expanded: seq<Scored>,
                                         picks: seq<nat>)
    requires n <= |sorted| && IsGreedy(sorted, n, budget, expanded, picks) && budget - Tokens(expanded) <= 0
    ensures IsGreedy(sorted, |sorted|, budget, expanded, picks)
    decreases |sorted| - n
  {
    if n < |sorted| {
      PassNeighbor(sorted, n, budget, expanded, picks);
      RestHasNoRoom(sorted, n + 1, budget, expanded, picks);
    }
  }

  /** Neighbours in score order, each added if it still fits. */
  method PackNeighbors(sorted: seq<Scored>, budget: nat) returns (expanded: seq<Scored>, ghost picks: seq<nat>)
    ensures IsGreedy(sorted, |sorted|, budget, expanded, picks)
    ensures Tokens(expanded) <= budget
  {
    expanded, picks := [], [];
    OpenGreedy(sorted, 0, budget, expanded, picks);
    var remaining: int := budget;
    for n := 0 to |sorted|
      invariant IsGreedy(sorted, n, budget, expanded, picks)
      invariant 0 <= remaining == budget - Tokens(expanded)
    {
      if remaining <= 0 {
        RestHasNoRoom(sorted, n, budget, expanded, picks);
        break;
      }
      if sorted[n].tokenCount <= remaining {
        TakeNeighbor(sorted, n, budget, expanded, picks);
        expanded := expanded + [sorted[n]];
        remaining := remaining - sorted[n].tokenCount;
        picks := picks + [n];
      } else {
        PassNeighbor(sorted, n, budget, expanded, picks);
      }
    }
  }

  lemma SortKeepsChunks(sorted: seq<Scored>, s: seq<Scored>)
    requires IsSortOf(sorted, s)
    ensures |sorted| == |s| && forall c :: c in sorted <==> c in s
  {
    assert |multiset(sorted)| == |multiset(s)|;
    forall c ensures c in sorted <==> c in s {
      assert c in multiset(sorted) <==> c in multiset(s);
    }
  }

  lemma DistinctIdsSnoc(init: seq<Scored>, last: Scored)
    ensures DistinctIds(init + [last]) <==> DistinctIds(init) && last.chunkId !in Ids(init)
  {
    var s := init + [last];
    assert forall i :: 0 <= i < |init| ==> s[i] == init[i];
    assert s[|init|] == last;
    if last.chunkId in Ids(init) {
      var c :| c in init && c.chunkId == last.chunkId;
      var i :| 0 <= i < |init| && init[i] == c;
      assert s[i].chunkId == s[|init|].chunkId;
    } else {
      forall i | 0 <= i < |init| ensures init[i].chunkId != last.chunkId {
        assert init[i] in init;
      }
    }
  }

  lemma {:induction false} DistinctIdsCount(s: seq<Scored>)
    ensures |Ids(s)| <= |s|
    ensures DistinctIds(s) <==> |Ids(s)| == |s|
  {
    if s != [] {
      var init, last := s[..|s| - 1], s[|s| - 1];
      assert s == init + [last];
      DistinctIdsCount(init);
      IdsSnoc(init, last);
      DistinctIdsSnoc(init, last);
    }
  }

  lemma FreshSurvivesSortAndPick(view: GraphView, selected: seq<Scored>, candidates: seq<Scored>, found: seq<Scored>,
                                 sorted: seq<Scored>, expanded: seq<Scored>, picks: seq<nat>)
    requires Fresh(view, selected, candidates, found) && IsSortOf(sorted, found)
    requires Increasing(picks, |sorted|) && |picks| == |expanded|
    requires forall i :: 0 <= i < |picks| ==> expanded[i] == sorted[picks[i]]
    ensures Fresh(view, selected, candidates, expanded)
  {
    SortKeepsChunks(sorted, found);
    assert Ids(sorted) == Ids(found);
    DistinctIdsCount(found);
    DistinctIdsCount(sorted);
    forall c | c in expanded ensures c in found {
      var i :| 0 <= i < |expanded| && expanded[i] == c;
      assert sorted[picks[i]] in sorted;
    }
  }

  /** `found` lists every candidate that is reached and not selected. */
  ghost predicate Collected(view: GraphView, selected: seq<Scored>, candidates: seq<Scored>, found: seq<Scored>) {
    && Fresh(view, selected, candidates, found)
    && forall id ::
         Reached(view, selected, id) && id in Ids(candidates) && id !in Ids(selected) ==> id in Ids(found)
  }

  /** The neighbours, best first, and greedily those that fit. */
  method StructuralExpand(view: GraphView, selected: seq<Scored>, candidates: seq<Scored>, budget: nat,
                          sort: seq<Scored> -> seq<Scored>)
    returns (expanded: seq<Scored>, ghost found: seq<Scored>, ghost picks: seq<nat>)
    requires Sorts(sort)
    ensures Collected(view, selected, candidates, found)
    ensures IsGreedy(sort(found), |sort(found)|, budget, expanded, picks)
    ensures Fresh(view, selected, candidates, expanded)
    ensures Tokens(expanded) <= budget
  {
    var list := CollectNeighbors(view, selected, candidates);
    found := list;
    expanded, picks := PackNeighbors(sort(list), budget);
    OpenGreedy(sort(list), |sort(list)|, budget, expanded, picks);
    FreshSurvivesSortAndPick(view, selected, candidates, found, sort(found), expanded, picks);
  }

  // ---- The package ----

  /** The arguments of Assemble, with the order that the sort gives to equal scores. */
  datatype AssemblerInput = AssemblerInput(
    candidates: seq<Scored>,
    budget: int,
    store: Option<GraphView>,
    sort: seq<Scored> -> seq<Scored>
  )

  /** How a package came about: the packing, which ranked candidates it took, and the chunks added to it. */
  datatype Account = Account(
    packing: Packing,
    picks: seq<nat>,
    cut: nat,
    expanded: seq<Scored>,
    found: seq<Scored>,
    taken: seq<nat>
  )

  /** Thirty percent of what packing left over goes to neighbours. */
  function ExpansionBudget(p: Packing): nat {
    if p.remaining > 0 then p.remaining * 30 / 100 else 0
  }

  /** The chunks added to the packing: none, or the neighbours that fit, best first. */
  ghost predicate IsExpansion(input: AssemblerInput, a: Account) {
    var p := a.packing;
    if input.store == None || ExpansionBudget(p) == 0 then
      a.expanded == []
    else
      && Collected(input.store.value, p.selected, input.candidates, a.found)
      && var sorted := input.sort(a.found); IsGreedy(sorted, |sorted|, ExpansionBudget(p), a.expanded, a.taken)
  }

  ghost predicate IsAssembly(input: AssemblerInput, pkg: Package, a: Account) {
    var p := a.packing;
    && IsPacked(input.sort(input.candidates), input.budget, p, a.picks, a.cut)
    && pkg.chunks == p.selected + a.expanded && pkg.totalTokens == Tokens(pkg.chunks)
    && pkg.strategy == (if input.store.Some? then "hybrid_l0" else "keyword_l2")
    && pkg.truncated == p.truncated && pkg.budgetOverflow == p.overflowed
    && pkg.overflowTokens == (if p.overflowed then pkg.totalTokens - input.budget else 0)
    && IsExpansion(input, a) && Tokens(a.expanded) <= ExpansionBudget(p)
    && (input.store.Some? ==> Fresh(input.store.value, p.selected, input.candidates, a.expanded))
  }

  method TotalTokens(chunks: seq<Scored>) returns (n: int)
    ensures n == Tokens(chunks)
  {
    n := 0;
    for i := 0 to |chunks|
      invariant n == Tokens(chunks[..i])
    {
      assert chunks[..i + 1][..i] == chunks[..i];
      n := n + chunks[i].tokenCount;
    }
    assert chunks[..|chunks|] == chunks;
  }

  method Expand(input: AssemblerInput, p: Packing, ghost picks: seq<nat>, ghost cut: nat)
    returns (expanded: seq<Scored>, ghost a: Account)
    requires Sorts(input.sort)
    ensures a.packing == p && a.picks == picks && a.cut == cut && a.expanded == expanded
    ensures IsExpansion(input, a) && Tokens(expanded) <= ExpansionBudget(p)
    ensures input.store.Some? ==> Fresh(input.store.value, p.selected, input.candidates, expanded)
  {
    expanded := [];
    ghost var found, taken := [], [];
    if input.store.Some? && p.remaining > 0 {
      var expansionBudget := p.remaining * 30 / 100;
      if expansionBudget > 0 {
        expanded, found, taken :=
          StructuralExpand(input.store.value, p.selected, input.candidates, expansionBudget, input.sort);
      }
    }
    a := Account(p, picks, cut, expanded, found, taken);
  }

  method Assemble(input: AssemblerInput) returns (pkg: Package, ghost a: Account)
    requires Sorts(input.sort)
    ensures IsAssembly(input, pkg, a)
    ensures pkg.totalTokens == Tokens(pkg.chunks)
    ensures input.budget >= 0 && !pkg.truncated && !pkg.budgetOverflow ==> pkg.totalTokens <= input.budget
  {
    var p, picks, cut := Pack(input.sort(input.candidates), input.budget);
    var expanded;
    expanded, a := Expand(input, p, picks, cut);
    var selected := p.selected + expanded;
    var totalTokens := TotalTokens(selected);
    pkg := Package(selected, totalTokens, if input.store.Some? then "hybrid_l0" else "keyword_l2",
                   p.truncated, p.overflowed, if p.overflowed then totalTokens - input.budget else 0);
    UnflaggedFitsBudget(input, pkg, a);
  }

  /** Without a flag the package, expansion included, fits the budget. */
  lemma UnflaggedFitsBudget(input: AssemblerInput, pkg: Package, a: Account)
    requires IsAssembly(input, pkg, a)
    ensures input.budget >= 0 && !pkg.truncated && !pkg.budgetOverflow ==> pkg.totalTokens <= input.budget
  {
    OpenPacked(input.sort(input.candidates), input.budget, a.packing, a.picks, a.cut);
    TokensConcat(a.packing.selected, a.expanded);
  }

  /** With the overflow flag only the last chunk spills over, and the reported excess is exact. */
  lemma OverflowIsOneChunk(input: AssemblerInput, pkg: Package, a: Account)
    requires IsAssembly(input, pkg, a) && pkg.budgetOverflow
    ensures |pkg.chunks| >= 2 && Tokens(pkg.chunks[..|pkg.chunks| - 1]) < input.budget < pkg.totalTokens
    ensures pkg.overflowTokens == pkg.totalTokens - input.budget
  {
    OpenPacked(input.sort(input.candidates), input.budget, a.packing, a.picks, a.cut);
    assert a.expanded == [];
    assert pkg.chunks == a.packing.selected;
    var last := |pkg.chunks| - 1;
    assert !Overlaps(a.packing.selected[last], a.packing.selected[..last]);
  }

  /**
   A package is truncated exactly when its top candidate is too long. It is then that chunk alone, cut, and it
   fits the budget exactly when the lines of the chunk up to its first non-empty one do.
   */
  lemma TruncatedFitsExactly(input: AssemblerInput, pkg: Package, a: Account)
    requires IsAssembly(input, pkg, a)
    ensures var ranked := input.sort(input.candidates);
      && (pkg.truncated <==> ranked != [] && ranked[0].tokenCount > input.budget > 0)
      && (pkg.truncated ==>
            && |pkg.chunks| == 1 && pkg.chunks[0].chunkId == ranked[0].chunkId
            && (pkg.totalTokens <= input.budget <==>
                CostOfFirst(Lines(ranked[0].content), Forced(Lines(ranked[0].content))) <= input.budget))
  {
    var ranked := input.sort(input.candidates);
    TruncatesExactly(ranked, input.budget, a.packing, a.picks, a.cut);
    OpenPacked(ranked, input.budget, a.packing, a.picks, a.cut);
    if pkg.truncated {
      assert pkg.chunks == a.packing.selected;
      assert Tokens(pkg.chunks) == Tokens(pkg.chunks[..0]) + pkg.chunks[0].tokenCount;
      FitsExactly(Lines(ranked[0].content), input.budget, a.cut);
    }
  }

  const LONG_LINE := Scored(1, 1.0, "a.go", "f", "function", 1, 1, "abcdefgh", 3)

  lemma SortOfOne(sorted: seq<Scored>, c: Scored)
    requires IsSortOf(sorted, [c])
    ensures sorted == [c]
  {
    SortKeepsChunks(sorted, [c]);
    assert sorted[0] in sorted;
  }

  lemma LongLineCosts()
    ensures var ls := Lines(LONG_LINE.content); |ls| == 1 && Forced(ls) == 1 && CostOfFirst(ls, 1) == 3
  {
    LinesOfOneLine("abcdefgh");
    var ls := Lines("abcdefgh");
    assert CostOfFirst(ls, 1) == CostOfFirst(ls, 0) + LineCost(ls[0]);
  }

  /** One chunk of one line that costs three tokens: with a budget of one it is truncated to itself. */
  lemma TruncatedCanExceed(input: AssemblerInput, pkg: Package, a: Account)
    requires IsAssembly(input, pkg, a) && Sorts(input.sort)
    requires input.candidates == [LONG_LINE] && input.budget == 1
    ensures pkg.truncated && pkg.totalTokens > input.budget
  {
    SortOfOne(input.sort(input.candidates), LONG_LINE);
    LongLineCosts();
    TruncatedFitsExactly(input, pkg, a);
  }

  /** Candidates and a positive budget never give an empty package. */
  lemma NeverEmpty(input: AssemblerInput, pkg: Package, a: Account)
    requires IsAssembly(input, pkg, a) && Sorts(input.sort)
    requires input.candidates != [] && input.budget > 0
    ensures pkg.chunks != []
  {
    var ranked := input.sort(input.candidates);
    SortKeepsChunks(ranked, input.candidates);
    OpenPacked(ranked, input.budget, a.packing, a.picks, a.cut);
    if !a.packing.truncated {
      FirstIsTaken(ranked, input.budget, a.packing, a.picks);
    }
  }

  /** Expansion only ever brings back chunks that packing rejected for overlap, each once. */
  lemma ExpansionAddsOverlapRejects(input: AssemblerInput, pkg: Package, a: Account)
    requires IsAssembly(input, pkg, a) && Sorts(input.sort)
    ensures DistinctIds(a.expanded)
    ensures forall c :: c in a.expanded ==>
              && c in input.candidates && c.chunkId !in Ids(a.packing.selected)
              && Overlaps(c, a.packing.selected)
  {
    var p, ranked := a.packing, input.sort(input.candidates);
    SortKeepsChunks(ranked, input.candidates);
    OpenPacked(ranked, input.budget, p, a.picks, a.cut);
    forall c | c in a.expanded ensures Overlaps(c, p.selected) {
      assert c in ranked && p.remaining > 0 && !p.truncated;
      NotPickedOverlaps(ranked, input.budget, p, a.picks, c);
    }
  }

  /** Together with some of the neighbours that were added, `c` would take more than three tenths of the rest. */
  ghost predicate OverShare(c: Scored, expanded: seq<Scored>, remaining: int) {
    exists i :: 0 <= i <= |expanded| && 100 * (Tokens(expanded[..i]) + c.tokenCount) > 30 * remaining
  }

  /**
   Neighbours get no more than three tenths of the tokens that packing leaves, and one that costs anything is
   left out only because it would not have fitted in that share.
   */
  lemma ExpansionShare(input: AssemblerInput, pkg: Package, a: Account)
    requires IsAssembly(input, pkg, a) && Sorts(input.sort)
    ensures a.expanded != [] ==>
              input.store.Some? && 100 * Tokens(a.expanded) <= 30 * (input.budget - Tokens(a.packing.selected))
    ensures input.store.Some? ==>
              forall c :: c in a.found && c !in a.expanded && c.tokenCount > 0 ==>
                OverShare(c, a.expanded, a.packing.remaining)
  {
    var p := a.packing;
    OpenPacked(input.sort(input.candidates), input.budget, p, a.picks, a.cut);
    if input.store.Some? {
      forall c | c in a.found && c !in a.expanded && c.tokenCount > 0 ensures OverShare(c, a.expanded, p.remaining) {
        if ExpansionBudget(p) == 0 {
          assert Tokens(a.expanded[..0]) == 0;
        } else {
          LeftOutOfShare(input, a, c);
        }
      }
    }
  }

  lemma LeftOutOfShare(input: AssemblerInput, a: Account, c: Scored)
    requires IsExpansion(input, a) && input.store.Some? && ExpansionBudget(a.packing) != 0 && Sorts(input.sort)
    requires c in a.found && c !in a.expanded && c.tokenCount > 0
    ensures OverShare(c, a.expanded, a.packing.remaining)
  {
    var sorted, b := input.sort(a.found), ExpansionBudget(a.packing);
    SortKeepsChunks(sorted, a.found);
    OpenGreedy(sorted, |sorted|, b, a.expanded, a.taken);
    var k: nat :| k < |sorted| && sorted[k] == c;
    forall i | 0 <= i < |a.taken| ensures a.taken[i] != k {
      assert a.expanded[i] in a.expanded;
    }
    var i := Before(a.taken, k);
    assert NoRoom(c, LeftAfter(b, a.expanded, i));
    assert 100 * (Tokens(a.expanded[..i]) + c.tokenCount) > 30 * a.packing.remaining;
  }

  lemma OverlapsMore(c: Scored, selected: seq<Scored>, i: nat)
    requires i <= |selected| && Overlaps(c, selected[..i])
    ensures Overlaps(c, selected)
  {}

  lemma NotPickedOverlaps(seen: seq<Scored>, budget: int, p: Packing, picks: seq<nat>, c: Scored)
    requires Chosen(seen, budget, p, picks) && Complete(seen, p, picks) && p.remaining > 0
    requires c in seen && c.chunkId !in Ids(p.selected)
    ensures Overlaps(c, p.selected)
  {
    var k: nat :| k < |seen| && seen[k] == c;
    forall i | 0 <= i < |picks| ensures picks[i] != k {
      assert p.selected[i] in p.selected && p.selected[i].chunkId in Ids(p.selected);
    }
    OverlapsMore(c, p.selected, Before(picks, k));
  }

  /** Primary picks come in descending score, and none is mostly inside an earlier one. */
  lemma PicksDescendWithoutOverlap(input: AssemblerInput, pkg: Package, a: Account, i: nat, j: nat)
    requires IsAssembly(input, pkg, a) && Sorts(input.sort)
    requires i < j < |a.packing.selected|
    ensures a.packing.selected[i].score >= a.packing.selected[j].score
    ensures !MostlyInside(a.packing.selected[j], a.packing.selected[i])
  {
    var ranked := input.sort(input.candidates);
    OpenPacked(ranked, input.budget, a.packing, a.picks, a.cut);
    assert IsSortOf(ranked, input.candidates);
    assert a.packing.selected[..j][i] == a.packing.selected[i];
    assert !Overlaps(a.packing.selected[j], a.packing.selected[..j]);
  }
}
