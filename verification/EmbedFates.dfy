/**
 What the embedder answered, and what became of each chunk because of it
 (internal/vector/embed_worker.go, RunFromDB): no vector is stored under the wrong chunk or unchecked, no
 chunk is dropped without a reason, and no request is left out unless the breaker refuses it.
 */
module EmbedFates {
  import opened CircuitBreaking
  import opened Paging
  import opened Sanitizing
  import opened VectorFile
  import opened VectorStores

  /** One call to the embedder: a vector per text, an error that retrying cannot fix, or another one. */
  datatype EmbedOutcome = Vectors(of: nat -> Vector) | PermanentFailure | TransientFailure

  /** What the worker cannot decide: the answers to its questions, those of each kind numbered as they are asked. */
  datatype World = World(embed: nat -> EmbedOutcome, clock: nat -> int, cancelled: nat -> bool, ioFails: nat -> bool)

  /** A request for these chunks: refused by the breaker, or passed on to the embedder. */
  datatype Try = Refused(ids: seq<int>) | Call(ids: seq<int>, outcome: EmbedOutcome)

  predicate IsFailure(t: Try) {
    t.Refused? || t.outcome.TransientFailure?
  }

  /** The requests of a run, the vectors before and now, the chunks dropped, and those dropped as still failing. */
  datatype Fates = Fates(
    tries: seq<Try>,
    vecs0: map<Int64, Vector>,
    vecs: map<Int64, Vector>,
    skipped: set<int>,
    rejected: set<int>,
    gaveUp: set<int>
  )

  /** `v` is what the embedder returned for this chunk. */
  ghost predicate Answered(tries: seq<Try>, id: int, v: Vector) {
    exists c, k :: 0 <= c < |tries| && tries[c].Call? && tries[c].outcome.Vectors? && 0 <= k < |tries[c].ids|
                   && tries[c].ids[k] == id && tries[c].outcome.of(k) == v
  }

  ghost predicate AnsweredBadly(tries: seq<Try>, id: int) {
    exists v :: Answered(tries, id, v) && !Healthy(v)
  }

  ghost predicate RefusedForGood(tries: seq<Try>, id: int) {
    exists c :: 0 <= c < |tries| && tries[c].Call? && tries[c].outcome.PermanentFailure? && id in tries[c].ids
  }

  /** Every request that named this chunk was refused by the breaker or failed transiently. */
  ghost predicate NeverAnswered(tries: seq<Try>, id: int) {
    forall c :: 0 <= c < |tries| && id in tries[c].ids ==> IsFailure(tries[c])
  }

  ghost predicate Explained(f: Fates) {
    && (forall id :: id in f.vecs && !(id in f.vecs0 && f.vecs0[id] == f.vecs[id])
                     ==> Answered(f.tries, id, f.vecs[id]) && Healthy(f.vecs[id]))
    && (forall id :: id in f.rejected ==> AnsweredBadly(f.tries, id))
    && (forall id :: id in f.skipped - f.gaveUp ==> RefusedForGood(f.tries, id) || AnsweredBadly(f.tries, id))
    && (forall id :: id in f.gaveUp ==> NeverAnswered(f.tries, id))
  }

  ghost predicate Booked(f: Fates, id: int) {
    id in f.vecs || id in f.rejected || id in f.skipped - f.gaveUp
  }

  /** Every answer has been acted upon. */
  ghost predicate Accounted(f: Fates) {
    forall id :: !Booked(f, id) ==> NeverAnswered(f.tries, id)
  }

  // Folded as the accounts are.

  ghost predicate ExplainedFolded(f: Fates, lock: nat) {
    if lock == 0 then Explained(f) else ExplainedFolded(f, lock - 1)
  }

  ghost predicate AccountedFolded(f: Fates, lock: nat) {
    if lock == 0 then Accounted(f) else AccountedFolded(f, lock - 1)
  }

  ghost predicate IsExplained(f: Fates) {
    ExplainedFolded(f, 3 + |f.tries|)
  }

  ghost predicate IsAccounted(f: Fates) {
    AccountedFolded(f, 3 + |f.tries|)
  }

  lemma {:induction false} UnfoldExplained(f: Fates, lock: nat)
    ensures ExplainedFolded(f, lock) <==> Explained(f)
  {
    if lock > 0 {
      UnfoldExplained(f, lock - 1);
    }
  }

  lemma {:induction false} UnfoldAccounted(f: Fates, lock: nat)
    ensures AccountedFolded(f, lock) <==> Accounted(f)
  {
    if lock > 0 {
      UnfoldAccounted(f, lock - 1);
    }
  }

  lemma OpenFates(f: Fates)
    ensures IsExplained(f) <==> Explained(f)
    ensures IsAccounted(f) <==> Accounted(f)
  {
    UnfoldExplained(f, 3 + |f.tries|);
    UnfoldAccounted(f, 3 + |f.tries|);
  }

  // ---- The log and the breaker ----

  /** The breaker, and how often the clock has been read and the embedder has answered. */
  datatype Standing = Standing(breaker: Breaker, readings: nat, answers: nat)

  /**
   What a request does: the breaker is told the time; if the embedder answers, success and transient failure
   are reported, the latter with another reading of the clock, and a permanent error is not.
   */
  function AfterTry(w: World, p: Standing, t: Try): Standing {
    var granted := AfterAllow(p.breaker, w.clock(p.readings));
    match t
    case Refused(_) => Standing(granted, p.readings + 1, p.answers)
    case Call(_, outcome) =>
      match outcome
      case Vectors(_) => Standing(AfterSuccess(granted), p.readings + 1, p.answers + 1)
      case PermanentFailure => Standing(granted, p.readings + 1, p.answers + 1)
      case TransientFailure =>
        Standing(AfterFailure(granted, w.clock(p.readings + 1)), p.readings + 2, p.answers + 1)
  }

  /** A request is refused just when the breaker refuses at the time read; an answer is the embedder's next one. */
  ghost predicate Honest(w: World, p: Standing, t: Try) {
    (t.Call? <==> Grants(p.breaker, w.clock(p.readings))) && (t.Call? ==> t.outcome == w.embed(p.answers))
  }

  /** Before request number `k`. */
  function StandingAt(w: World, origin: Standing, tries: seq<Try>, k: nat): Standing
    requires k <= |tries|
  {
    if k == 0 then origin else AfterTry(w, StandingAt(w, origin, tries, k - 1), tries[k - 1])
  }

  /** Each of the first `k` requests is honest: no answer or reading is missing, repeated or made up. */
  ghost predicate LogUpTo(w: World, origin: Standing, tries: seq<Try>, k: nat)
    requires k <= |tries|
  {
    k == 0 || (LogUpTo(w, origin, tries, k - 1) && Honest(w, StandingAt(w, origin, tries, k - 1), tries[k - 1]))
  }

  ghost predicate IsLog(w: World, origin: Standing, tries: seq<Try>) {
    LogUpTo(w, origin, tries, |tries|)
  }

  /** These are all the requests since `origin`, and they lead to `p`; folded as the accounts are. */
  ghost predicate ReplayFolded(w: World, origin: Standing, tries: seq<Try>, p: Standing, lock: nat) {
    if lock == 0 then IsLog(w, origin, tries) && p == StandingAt(w, origin, tries, |tries|)
    else ReplayFolded(w, origin, tries, p, lock - 1)
  }

  ghost predicate Replays(w: World, origin: Standing, tries: seq<Try>, p: Standing) {
    ReplayFolded(w, origin, tries, p, 3 + |tries|)
  }

  lemma {:induction false} UnfoldReplay(w: World, origin: Standing, tries: seq<Try>, p: Standing, lock: nat)
    ensures ReplayFolded(w, origin, tries, p, lock) <==>
            IsLog(w, origin, tries) && p == StandingAt(w, origin, tries, |tries|)
  {
    if lock > 0 {
      UnfoldReplay(w, origin, tries, p, lock - 1);
    }
  }

  lemma OpenReplay(w: World, origin: Standing, tries: seq<Try>, p: Standing)
    ensures Replays(w, origin, tries, p) <==>
            IsLog(w, origin, tries) && p == StandingAt(w, origin, tries, |tries|)
  {
    UnfoldReplay(w, origin, tries, p, 3 + |tries|);
  }

  lemma {:induction false} SameBefore(w: World, origin: Standing, tries: seq<Try>, t: Try, k: nat)
    requires k <= |tries|
    ensures StandingAt(w, origin, tries + [t], k) == StandingAt(w, origin, tries, k)
    ensures LogUpTo(w, origin, tries + [t], k) <==> LogUpTo(w, origin, tries, k)
  {
    if k > 0 {
      SameBefore(w, origin, tries, t, k - 1);
    }
  }

  lemma ReplayGrows(w: World, origin: Standing, tries: seq<Try>, p: Standing, t: Try)
    requires Replays(w, origin, tries, p) && Honest(w, p, t)
    ensures Replays(w, origin, tries + [t], AfterTry(w, p, t))
  {
    OpenReplay(w, origin, tries, p);
    OpenReplay(w, origin, tries + [t], AfterTry(w, p, t));
    SameBefore(w, origin, tries, t, |tries|);
  }

  lemma {:induction false} LogAt(w: World, origin: Standing, tries: seq<Try>, k: nat, n: nat)
    requires k < n <= |tries| && LogUpTo(w, origin, tries, n)
    ensures Honest(w, StandingAt(w, origin, tries, k), tries[k])
    ensures StandingAt(w, origin, tries, k + 1) == AfterTry(w, StandingAt(w, origin, tries, k), tries[k])
  {
    if k < n - 1 {
      LogAt(w, origin, tries, k, n - 1);
    }
  }

  // ---- A wedged breaker ----

  predicate Wedged(b: Breaker) {
    b.state == HalfOpen && b.halfOpenProbing
  }

  lemma PermanentWedges(w: World, p: Standing, t: Try)
    requires Honest(w, p, t) && t.Call? && t.outcome.PermanentFailure? && p.breaker.state != Closed
    ensures Wedged(AfterTry(w, p, t).breaker)
  {}

  lemma WedgedRefuses(w: World, p: Standing, t: Try)
    requires Honest(w, p, t) && Wedged(p.breaker)
    ensures t.Refused? && Wedged(AfterTry(w, p, t).breaker)
  {}

  /** A permanent error on a half-open probe is never reported: the breaker lets nothing through after it. */
  lemma {:induction false} WedgedBy(w: World, origin: Standing, tries: seq<Try>, i: nat, j: nat)
    requires IsLog(w, origin, tries) && i < j <= |tries|
    requires tries[i].Call? && tries[i].outcome.PermanentFailure?
    requires StandingAt(w, origin, tries, i).breaker.state != Closed
    ensures Wedged(StandingAt(w, origin, tries, j).breaker)
    ensures j < |tries| ==> tries[j].Refused?
  {
    LogAt(w, origin, tries, j - 1, |tries|);
    if j == i + 1 {
      PermanentWedges(w, StandingAt(w, origin, tries, i), tries[i]);
    } else {
      WedgedBy(w, origin, tries, i, j - 1);
      WedgedRefuses(w, StandingAt(w, origin, tries, j - 1), tries[j - 1]);
    }
    if j < |tries| {
      LogAt(w, origin, tries, j, |tries|);
      WedgedRefuses(w, StandingAt(w, origin, tries, j), tries[j]);
    }
  }

  /** A chunk first requested after that gets no answer at all. */
  lemma WedgedGetsNoAnswer(w: World, origin: Standing, f: Fates, i: nat, id: int)
    requires IsLog(w, origin, f.tries) && i < |f.tries| && Explained(f)
    requires f.tries[i].Call? && f.tries[i].outcome.PermanentFailure?
    requires StandingAt(w, origin, f.tries, i).breaker.state != Closed
    requires forall k :: 0 <= k <= i ==> id !in f.tries[k].ids
    ensures id in f.vecs ==> id in f.vecs0
    ensures id !in f.rejected && (id in f.skipped ==> id in f.gaveUp)
  {
    forall k | 0 <= k < |f.tries| && id in f.tries[k].ids ensures f.tries[k].Refused? {
      WedgedBy(w, origin, f.tries, i, k);
    }
    assert !RefusedForGood(f.tries, id) && forall v :: !Answered(f.tries, id, v);
  }

  /** Once cancelled, always cancelled. */
  ghost predicate StaysCancelled(w: World) {
    forall s, t :: s <= t && w.cancelled(s) ==> w.cancelled(t)
  }

  /** Nothing is cancelled, no I/O fails and every answer is a healthy vector of this length. */
  ghost predicate GoodWorld(w: World, dim: nat) {
    && (forall t :: !w.cancelled(t))
    && (forall t :: !w.ioFails(t))
    && forall t :: GoodAnswer(w.embed(t), dim)
  }

  ghost predicate GoodAnswer(o: EmbedOutcome, dim: nat) {
    o.Vectors? && forall k :: Healthy(o.of(k)) && |o.of(k)| == dim
  }

  /** In a good world a closed breaker stays closed, so every request is answered. */
  lemma {:induction false} GoodLog(w: World, dim: nat, origin: Standing, tries: seq<Try>)
    requires GoodWorld(w, dim) && origin.breaker.state == Closed && IsLog(w, origin, tries)
    ensures forall k :: 0 <= k < |tries| ==> tries[k].Call? && GoodAnswer(tries[k].outcome, dim)
  {
    forall k | 0 <= k < |tries| ensures tries[k].Call? && GoodAnswer(tries[k].outcome, dim) {
      StaysClosed(w, dim, origin, tries, k);
      LogAt(w, origin, tries, k, |tries|);
    }
  }

  lemma {:induction false} StaysClosed(w: World, dim: nat, origin: Standing, tries: seq<Try>, k: nat)
    requires GoodWorld(w, dim) && origin.breaker.state == Closed && IsLog(w, origin, tries) && k <= |tries|
    ensures StandingAt(w, origin, tries, k).breaker.state == Closed
  {
    if k > 0 {
      StaysClosed(w, dim, origin, tries, k - 1);
      LogAt(w, origin, tries, k - 1, |tries|);
    }
  }

  /** How many requests named a chunk. */
  function TimesNamed(tries: seq<Try>, id: int): nat {
    if tries == [] then 0
    else TimesNamed(tries[..|tries| - 1], id) + if id in tries[|tries| - 1].ids then 1 else 0
  }

  lemma {:induction false} NamedSomewhere(tries: seq<Try>, id: int) returns (k: nat)
    requires TimesNamed(tries, id) > 0
    ensures k < |tries| && id in tries[k].ids
  {
    k := |tries| - 1;
    if id !in tries[k].ids {
      k := NamedSomewhere(tries[..k], id);
    }
  }

  lemma {:induction false} NamedAlways(tries: seq<Try>, id: int)
    requires forall k :: 0 <= k < |tries| ==> id in tries[k].ids
    ensures TimesNamed(tries, id) == |tries|
  {
    if tries != [] {
      NamedAlways(tries[..|tries| - 1], id);
    }
  }

  /** A run in a good world drops nothing. */
  lemma GoodRunDropsNothing(w: World, dim: nat, origin: Standing, f: Fates)
    requires GoodWorld(w, dim) && origin.breaker.state == Closed && IsLog(w, origin, f.tries) && Explained(f)
    requires forall id :: id in f.gaveUp ==> TimesNamed(f.tries, id) > 0
    ensures f.skipped == {} && f.rejected == {} && f.gaveUp == {}
  {
    GoodLog(w, dim, origin, f.tries);
    forall id ensures id !in f.gaveUp {
      if id in f.gaveUp {
        var k := NamedSomewhere(f.tries, id);
        assert false;
      }
    }
    forall id ensures id !in f.skipped && id !in f.rejected {
      AnswersAreGood(f.tries, dim, id);
    }
  }

  lemma AnswersAreGood(tries: seq<Try>, dim: nat, id: int)
    requires forall k :: 0 <= k < |tries| ==> tries[k].Call? && GoodAnswer(tries[k].outcome, dim)
    ensures !AnsweredBadly(tries, id) && !RefusedForGood(tries, id)
  {
    forall v | Answered(tries, id, v) ensures Healthy(v) {
      var c, k :| 0 <= c < |tries| && tries[c].Call? && tries[c].outcome.Vectors? && 0 <= k < |tries[c].ids|
        && tries[c].ids[k] == id && tries[c].outcome.of(k) == v;
    }
  }

  // ---- Passes over the deferred chunks ----

  /** A pass requests each chunk once, on its own and in order. */
  ghost predicate OnePass(jobs: seq<int>, log: seq<Try>) {
    |log| == |jobs| && forall k :: 0 <= k < |log| ==> log[k].ids == [jobs[k]]
  }

  function FailedOf(jobs: seq<int>, log: seq<Try>): seq<int>
    requires |jobs| == |log|
  {
    if jobs == [] then []
    else
      var n := |jobs| - 1;
      FailedOf(jobs[..n], log[..n]) + if IsFailure(log[n]) then [jobs[n]] else []
  }

  /** `n` passes, each over what failed in the one before, leave `left`. */
  ghost predicate Passes(jobs: seq<int>, log: seq<Try>, n: nat, left: seq<int>)
    decreases n
  {
    if n == 0 then log == [] && left == jobs
    else
      && |jobs| <= |log| && OnePass(jobs, log[..|jobs|])
      && Passes(FailedOf(jobs, log[..|jobs|]), log[|jobs|..], n - 1, left)
  }

  lemma {:induction false} PassesThenOne(jobs: seq<int>, log: seq<Try>, n: nat, mid: seq<int>, more: seq<Try>)
    requires Passes(jobs, log, n, mid) && OnePass(mid, more)
    ensures Passes(jobs, log + more, n + 1, FailedOf(mid, more))
    decreases n
  {
    var j := |jobs|;
    if n == 0 {
      assert log + more == more && more[..j] == more && more[j..] == [];
    } else {
      PassesThenOne(FailedOf(jobs, log[..j]), log[j..], n - 1, mid, more);
      assert (log + more)[..j] == log[..j] && (log + more)[j..] == log[j..] + more;
    }
  }

  /** Without deferred chunks further passes change nothing. */
  lemma {:induction false} EmptyPasses(jobs: seq<int>, log: seq<Try>, n: nat, m: nat)
    requires n <= m && Passes(jobs, log, n, [])
    ensures Passes(jobs, log, m, [])
    decreases m - n
  {
    if n < m {
      PassesThenOne(jobs, log, n, [], []);
      assert log + [] == log;
      EmptyPasses(jobs, log, n + 1, m);
    }
  }

  lemma {:induction false} NamedConcat(a: seq<Try>, b: seq<Try>, id: int)
    ensures TimesNamed(a + b, id) == TimesNamed(a, id) + TimesNamed(b, id)
  {
    if b == [] {
      assert a + b == a;
    } else {
      var n := |b| - 1;
      assert (a + b)[..|a + b| - 1] == a + b[..n];
      NamedConcat(a, b[..n], id);
    }
  }

  lemma {:induction false} FailedInPass(jobs: seq<int>, log: seq<Try>, id: int)
    requires OnePass(jobs, log) && id in FailedOf(jobs, log)
    ensures TimesNamed(log, id) >= 1 && id in jobs
  {
    var n := |jobs| - 1;
    if log[n].ids != [id] {
      FailedInPass(jobs[..n], log[..n], id);
    }
  }

  /** What is left after `n` passes was requested in each. */
  lemma {:induction false} LeftWasTried(jobs: seq<int>, log: seq<Try>, n: nat, left: seq<int>, id: int)
    requires Passes(jobs, log, n, left) && id in left
    ensures TimesNamed(log, id) >= n && id in jobs
    decreases n
  {
    if n > 0 {
      var here, later := log[..|jobs|], log[|jobs|..];
      LeftWasTried(FailedOf(jobs, here), later, n - 1, left, id);
      FailedInPass(jobs, here, id);
      NamedConcat(here, later, id);
      assert here + later == log;
    }
  }

  lemma StartExplained(vecs0: map<Int64, Vector>)
    ensures IsExplained(Fates([], vecs0, vecs0, {}, {}, {})) && IsAccounted(Fates([], vecs0, vecs0, {}, {}, {}))
  {
    OpenFates(Fates([], vecs0, vecs0, {}, {}, {}));
  }

  // ---- Steps ----

  lemma AnsweredStays(tries: seq<Try>, more: seq<Try>, id: int, v: Vector)
    requires tries <= more && Answered(tries, id, v)
    ensures Answered(more, id, v)
  {
    var c, k :| 0 <= c < |tries| && tries[c].Call? && tries[c].outcome.Vectors? && 0 <= k < |tries[c].ids|
      && tries[c].ids[k] == id && tries[c].outcome.of(k) == v;
    assert more[c].ids[k] == id;
  }

  lemma ReasonsStay(tries: seq<Try>, more: seq<Try>, id: int)
    requires tries <= more
    ensures AnsweredBadly(tries, id) ==> AnsweredBadly(more, id)
    ensures RefusedForGood(tries, id) ==> RefusedForGood(more, id)
  {
    if AnsweredBadly(tries, id) {
      var v :| Answered(tries, id, v) && !Healthy(v);
      AnsweredStays(tries, more, id, v);
    }
    if RefusedForGood(tries, id) {
      var c :| 0 <= c < |tries| && tries[c].Call? && tries[c].outcome.PermanentFailure? && id in tries[c].ids;
      assert more[c] == tries[c];
    }
  }

  /** More requests take no explanation away, as long as no chunk has been given up. */
  lemma MoreTries(f: Fates, more: seq<Try>)
    requires IsExplained(f) && f.tries <= more && f.gaveUp == {}
    ensures IsExplained(f.(tries := more))
  {
    var g := f.(tries := more);
    OpenFates(f);
    OpenFates(g);
    forall id | id in g.vecs && !(id in g.vecs0 && g.vecs0[id] == g.vecs[id]) ensures Answered(more, id, g.vecs[id]) {
      AnsweredStays(f.tries, more, id, f.vecs[id]);
    }
    forall id ensures AnsweredBadly(f.tries, id) ==> AnsweredBadly(more, id)
              ensures RefusedForGood(f.tries, id) ==> RefusedForGood(more, id)
    {
      ReasonsStay(f.tries, more, id);
    }
  }

  /** Since `first` there were only requests for these chunks that failed. */
  ghost predicate OnlyFailed(first: seq<Try>, tries: seq<Try>, need: seq<int>) {
    first <= tries && forall k :: |first| <= k < |tries| ==> tries[k].ids == need && IsFailure(tries[k])
  }

  /** Failures call for no booking. */
  lemma FailuresAccounted(f: Fates, more: seq<Try>, need: seq<int>)
    requires IsAccounted(f) && OnlyFailed(f.tries, more, need)
    ensures IsAccounted(f.(tries := more))
  {
    var g := f.(tries := more);
    OpenFates(f);
    OpenFates(g);
    forall id | !Booked(g, id) ensures NeverAnswered(more, id) {
      assert !Booked(f, id);
      forall c | 0 <= c < |more| && id in more[c].ids ensures IsFailure(more[c]) {
        assert c < |f.tries| ==> more[c] == f.tries[c];
      }
    }
  }

  function Last(tries: seq<Try>): Try
    requires tries != []
  {
    tries[|tries| - 1]
  }

  function Init(tries: seq<Try>): seq<Try>
    requires tries != []
  {
    tries[..|tries| - 1]
  }

  /** One answer is accounted for once its chunks are booked. */
  lemma LastAccounted(f: Fates, g: Fates)
    requires f.tries != [] && Accounted(f.(tries := Init(f.tries))) && g.tries == f.tries
    requires forall id :: Booked(f, id) || id in Last(f.tries).ids ==> Booked(g, id)
    ensures Accounted(g)
  {
    var before := f.(tries := Init(f.tries));
    forall id | !Booked(g, id) ensures NeverAnswered(g.tries, id) {
      assert !Booked(before, id);
      forall c | 0 <= c < |g.tries| && id in g.tries[c].ids ensures IsFailure(g.tries[c]) {
        assert c < |g.tries| - 1 ==> g.tries[c] == before.tries[c];
      }
    }
  }

  /** A permanent error drops the chunks it was about. */
  lemma SkipExplained(f: Fates, need: seq<int>)
    requires IsExplained(f) && f.gaveUp == {} && f.tries != []
    requires Last(f.tries).Call? && Last(f.tries).outcome.PermanentFailure? && Last(f.tries).ids == need
    requires IsAccounted(f.(tries := Init(f.tries)))
    ensures var g := f.(skipped := f.skipped + Elements(need)); IsExplained(g) && IsAccounted(g)
  {
    var g := f.(skipped := f.skipped + Elements(need));
    OpenFates(f);
    OpenFates(f.(tries := Init(f.tries)));
    OpenFates(g);
    forall id | id in Elements(need) ensures RefusedForGood(f.tries, id) {
      assert f.tries[|f.tries| - 1].outcome.PermanentFailure?;
    }
    LastAccounted(f, g);
  }

  lemma LastAnswers(tries: seq<Try>, k: nat)
    requires tries != [] && Last(tries).Call? && Last(tries).outcome.Vectors? && k < |Last(tries).ids|
    ensures Answered(tries, Last(tries).ids[k], Last(tries).outcome.of(k))
  {
    assert tries[|tries| - 1].ids[k] == Last(tries).ids[k];
  }

  lemma {:induction false} CleanLengths(ids: seq<Int64>, vecs: seq<Vector>)
    requires |ids| == |vecs|
    ensures |CleanIds(ids, vecs)| == |CleanVecs(vecs)|
  {
    if ids != [] {
      CleanLengths(ids[..|ids| - 1], vecs[..|ids| - 1]);
    }
  }

  /** Every vector that is new after the upsert is a healthy one of those given, under its own id. */
  lemma {:induction false} InsertedFrom(v: map<Int64, Vector>, ids: seq<Int64>, vecs: seq<Vector>, id: Int64)
    requires |ids| == |vecs|
    requires |CleanIds(ids, vecs)| == |CleanVecs(vecs)|
    requires id in Inserted(v, CleanIds(ids, vecs), CleanVecs(vecs))
    ensures var w := Inserted(v, CleanIds(ids, vecs), CleanVecs(vecs));
      || (id in v && w[id] == v[id])
      || (exists k :: 0 <= k < |ids| && ids[k] == id && Healthy(vecs[k]) && w[id] == vecs[k])
  {
    if ids != [] {
      var n := |ids| - 1;
      var init, initVecs := ids[..n], vecs[..n];
      CleanLengths(init, initVecs);
      var cleanIds, cleanVecs := CleanIds(init, initVecs), CleanVecs(initVecs);
      if Healthy(vecs[n]) {
        assert (cleanIds + [ids[n]])[..|cleanIds|] == cleanIds && (cleanVecs + [vecs[n]])[..|cleanIds|] == cleanVecs;
        if id != ids[n] {
          InsertedFrom(v, init, initVecs, id);
        }
      } else {
        assert cleanIds + [] == cleanIds && cleanVecs + [] == cleanVecs;
        InsertedFrom(v, init, initVecs, id);
      }
    }
  }

  lemma {:induction false} UncleanIsUnhealthy(ids: seq<Int64>, vecs: seq<Vector>, k: nat)
    requires |ids| == |vecs| && k < |ids| && ids[k] !in CleanIds(ids, vecs)
    ensures !Healthy(vecs[k])
  {
    var n := |ids| - 1;
    if k < n {
      UncleanIsUnhealthy(ids[..n], vecs[..n], k);
    }
  }

  lemma {:induction false} CleanVecsFrom(vecs: seq<Vector>, v: Vector) returns (k: nat)
    requires v in CleanVecs(vecs)
    ensures k < |vecs| && vecs[k] == v && Healthy(v)
  {
    k := |vecs| - 1;
    if !(Healthy(vecs[k]) && vecs[k] == v) {
      k := CleanVecsFrom(vecs[..k], v);
    }
  }

  lemma {:induction false} InsertedKeys(v: map<Int64, Vector>, ids: seq<Int64>, vecs: seq<Vector>)
    requires |ids| == |vecs|
    ensures var w := Inserted(v, ids, vecs);
      && (forall id :: id in w <==> id in v || id in ids)
      && forall id :: id in v && id !in ids ==> w[id] == v[id]
  {
    if ids != [] {
      InsertedKeys(v, ids[..|ids| - 1], vecs[..|ids| - 1]);
      assert ids == ids[..|ids| - 1] + [ids[|ids| - 1]];
    }
  }

  /** The last request was answered with these vectors. */
  ghost predicate Gave(tries: seq<Try>, need: seq<int>, vecs: seq<Vector>) {
    && tries != [] && Last(tries).Call? && Last(tries).ids == need && Last(tries).outcome.Vectors?
    && |vecs| == |need| && forall k :: 0 <= k < |vecs| ==> vecs[k] == Last(tries).outcome.of(k)
  }

  /** The fates after an answer for `need` is sanitized and stored. */
  ghost function Stored(f: Fates, need: seq<Int64>, vecs: seq<Vector>): Fates
    requires |need| == |vecs| && |CleanIds(need, vecs)| == |CleanVecs(vecs)|
  {
    var clean := CleanIds(need, vecs);
    f.(vecs := Inserted(f.vecs, clean, CleanVecs(vecs)), rejected := f.rejected + (Elements(need) - Elements(clean)))
  }

  /** An answer is stored chunk by chunk, except for the vectors the sanitizer turns down. */
  lemma StoreExplained(f: Fates, need: seq<Int64>, vecs: seq<Vector>)
    requires IsExplained(f) && f.gaveUp == {} && Gave(f.tries, need, vecs)
    requires |CleanIds(need, vecs)| == |CleanVecs(vecs)|
    ensures IsExplained(Stored(f, need, vecs))
  {
    var clean := CleanIds(need, vecs);
    var after := Inserted(f.vecs, clean, CleanVecs(vecs));
    OpenFates(f);
    OpenFates(Stored(f, need, vecs));
    forall id | id in after && !(id in f.vecs0 && f.vecs0[id] == after[id])
      ensures Answered(f.tries, id, after[id]) && Healthy(after[id])
    {
      InsertedFrom(f.vecs, need, vecs, id);
      if !(id in f.vecs && after[id] == f.vecs[id]) {
        var k :| 0 <= k < |need| && need[k] == id && Healthy(vecs[k]) && after[id] == vecs[k];
        LastAnswers(f.tries, k);
      }
    }
    forall id | id in Elements(need) - Elements(clean) ensures AnsweredBadly(f.tries, id) {
      var k :| 0 <= k < |need| && need[k] == id;
      UncleanIsUnhealthy(need, vecs, k);
      LastAnswers(f.tries, k);
    }
  }

  /** Each of its chunks is stored or rejected. */
  lemma StoreAccounted(f: Fates, need: seq<Int64>, vecs: seq<Vector>)
    requires Gave(f.tries, need, vecs) && |CleanIds(need, vecs)| == |CleanVecs(vecs)|
    requires IsAccounted(f.(tries := Init(f.tries)))
    ensures IsAccounted(Stored(f, need, vecs))
  {
    var g := Stored(f, need, vecs);
    OpenFates(f.(tries := Init(f.tries)));
    OpenFates(g);
    InsertedKeys(f.vecs, CleanIds(need, vecs), CleanVecs(vecs));
    forall id | Booked(f, id) || id in Last(f.tries).ids ensures Booked(g, id) {}
    LastAccounted(f, g);
  }

  lemma RetryStoreExplained(f: Fates, id: Int64, v: Vector)
    requires IsExplained(f) && f.gaveUp == {} && Gave(f.tries, [id], [v]) && Healthy(v)
    requires IsAccounted(f.(tries := Init(f.tries)))
    ensures IsExplained(f.(vecs := f.vecs[id := v])) && IsAccounted(f.(vecs := f.vecs[id := v]))
  {
    var g := f.(vecs := f.vecs[id := v]);
    OpenFates(f);
    OpenFates(f.(tries := Init(f.tries)));
    OpenFates(g);
    assert [v][0] == v;
    LastAnswers(f.tries, 0);
    LastAccounted(f, g);
  }

  /** The answer to a single chunk that drops it. */
  ghost predicate SkipsOne(t: Try, id: int) {
    && t.Call? && t.ids == [id]
    && match t.outcome
       case Vectors(of) => !Healthy(of(0))
       case PermanentFailure => true
       case TransientFailure => false
  }

  lemma RetrySkipExplained(f: Fates, id: int)
    requires IsExplained(f) && f.gaveUp == {} && f.tries != [] && SkipsOne(Last(f.tries), id)
    requires IsAccounted(f.(tries := Init(f.tries)))
    ensures IsExplained(f.(skipped := f.skipped + {id})) && IsAccounted(f.(skipped := f.skipped + {id}))
  {
    var g := f.(skipped := f.skipped + {id});
    OpenFates(f);
    OpenFates(f.(tries := Init(f.tries)));
    OpenFates(g);
    if Last(f.tries).outcome.Vectors? {
      LastAnswers(f.tries, 0);
    } else {
      assert f.tries[|f.tries| - 1].outcome.PermanentFailure? && id in f.tries[|f.tries| - 1].ids;
    }
    LastAccounted(f, g);
  }

  /** Chunks that are given up were never answered. */
  lemma GiveUpExplained(f: Fates, waiting: set<int>)
    requires IsExplained(f) && IsAccounted(f) && f.gaveUp == {}
    requires forall id :: id in waiting ==> id !in f.vecs && id !in f.rejected && id !in f.skipped
    ensures IsExplained(f.(skipped := f.skipped + waiting, gaveUp := waiting))
  {
    OpenFates(f);
    OpenFates(f.(skipped := f.skipped + waiting, gaveUp := waiting));
    forall id | id in waiting ensures NeverAnswered(f.tries, id) {
      assert !Booked(f, id);
    }
  }
}
