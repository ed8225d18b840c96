/**
 The pull-based embedding run (internal/vector/embed_worker.go, RunFromDB and its helpers): pages of chunks
 by cursor, batches that shrink on errors, failures deferred and retried, a circuit breaker in front of the
 embedder. The source is the database of EmbedStatus, the sink the brute-force vector store.

 What the embedder, the clock, cancellation and the stores' I/O do is up to a `World`: any functions of the
 number of questions of their kind asked so far. So each contract below is about every sequence of outcomes.
 Texts are not modelled; a job is a chunk id.
 */
module EmbedWorkers {
  import opened CircuitBreaking
  import opened EmbedBatches
  import opened EmbedFates
  import opened EmbedLedgers
  import opened EmbedStatus
  import opened Paging
  import opened Sanitizing
  import opened VectorFile
  import opened VectorStores

  const QUICK_RETRIES: nat := 3
  const MAX_PASSES: nat := 3

  /** One of the questions from number `from` to before number `to` was answered with yes. */
  ghost predicate Saw(answer: nat -> bool, from: nat, to: nat) {
    exists t :: from <= t < to && answer(t)
  }

  /** How often cancellation was looked at and a store was used. */
  datatype Moment = Moment(checks: nat, ios: nat)

  class Environment {
    const world: World
    var readings: nat
    var answers: nat
    var checks: nat
    var ios: nat
    /** The requests so far and how they ended. */
    ghost var tries: seq<Try>

    constructor (world: World)
      ensures this.world == world && readings == answers == checks == ios == 0 && tries == []
    {
      this.world := world;
      readings, answers, checks, ios := 0, 0, 0, 0;
      tries := [];
    }

    ghost function Asked(): Moment
      reads this
    {
      Moment(checks, ios)
    }

    method EmbedBatch(ids: seq<int>) returns (o: EmbedOutcome)
      modifies `answers, `tries
      ensures o == world.embed(old(answers)) && answers == old(answers) + 1
      ensures tries == old(tries) + [Call(ids, o)]
    {
      o := world.embed(answers);
      answers := answers + 1;
      tries := tries + [Call(ids, o)];
    }

    method Now() returns (t: int)
      modifies `readings
      ensures t == world.clock(old(readings)) && readings == old(readings) + 1
    {
      t := world.clock(readings);
      readings := readings + 1;
    }

    method Cancelled() returns (c: bool)
      modifies `checks
      ensures c == world.cancelled(old(checks)) && checks == old(checks) + 1
    {
      c := world.cancelled(checks);
      checks := checks + 1;
    }

    method IoFails() returns (f: bool)
      modifies `ios
      ensures f == world.ioFails(old(ios)) && ios == old(ios) + 1
    {
      f := world.ioFails(ios);
      ios := ios + 1;
    }
  }

  datatype RunError = NoError | ContextDone | StoreError | UpsertError

  datatype EmbedResult = Embedded(vecs: seq<Vector>) | BatchShrunk | Permanent | Exhausted

  datatype RetryResult = StillFailing | Gone | GaveUp(error: RunError)

  datatype BatchResult = Advanced | Shrunk | Aborted(error: RunError)

  class RunState {
    var embedded: nat
    var skipped: nat
    var activeBatch: nat
    var deferred: seq<int>
    const total: nat
    /** The database and vectors at the start, and where every chunk of the run is. */
    ghost const db0: Db
    ghost const vecs0: map<Int64, Vector>
    /** The breaker at the start, and what had been asked before. */
    ghost const origin: Standing
    ghost const start: Moment
    ghost var ledger: Ledger
    /** Halvings since the batch size was last the full one, and the most there ever were. */
    ghost var shrinks: nat
    ghost var maxShrinks: nat
    /** Chunks still failing after the last retry pass. */
    ghost var gaveUp: set<int>
    /** The chunks to embed in id order; the requests of the first phase, and what it deferred. */
    ghost const order: seq<int>
    ghost var phaseOne: seq<Try>
    ghost var held: seq<int>

    constructor (activeBatch: nat, total: nat, ghost db0: Db, ghost vecs0: map<Int64, Vector>,
                 ghost origin: Standing, ghost start: Moment, ghost order: seq<int>)
      ensures embedded == 0 && skipped == 0 && this.activeBatch == activeBatch && deferred == []
      ensures this.total == total && this.db0 == db0 && this.vecs0 == vecs0
      ensures this.origin == origin && this.start == start && this.order == order
      ensures phaseOne == [] && held == []
      ensures ledger == EMPTY && shrinks == 0 && maxShrinks == 0 && gaveUp == {}
    {
      embedded, skipped := 0, 0;
      this.activeBatch := activeBatch;
      deferred := [];
      this.total, this.db0, this.vecs0, this.origin, this.start := total, db0, vecs0, origin, start;
      ledger := EMPTY;
      shrinks, maxShrinks := 0, 0;
      gaveUp := {};
      this.order := order;
      phaseOne, held := [], [];
    }

    /** The batch size has been halved `shrinks` times from at most the full size. */
    ghost predicate SizesOk(batchSz: nat)
      reads this
    {
      && 1 <= activeBatch && activeBatch * Pow2(shrinks) <= batchSz
      && shrinks <= maxShrinks && Pow2(maxShrinks) <= batchSz
    }
  }

  /** The vectors of an answer, one for each text. */
  function Taken(of: nat -> Vector, n: nat): (vecs: seq<Vector>)
    ensures |vecs| == n && forall k :: 0 <= k < n ==> vecs[k] == of(k)
  {
    seq(n, k requires 0 <= k < n => of(k))
  }

  /** One answer about these chunks, and since `first` only failures before it. */
  ghost predicate EndedWithCall(need: seq<int>, first: seq<Try>, tries: seq<Try>) {
    tries != [] && OnlyFailed(first, Init(tries), need) && Last(tries).Call? && Last(tries).ids == need
  }

  /** The answers behind each result of embedding a batch. */
  ghost predicate Ended(r: EmbedResult, need: seq<int>, first: seq<Try>, tries: seq<Try>) {
    match r
    case Embedded(vecs) => EndedWithCall(need, first, tries) && Gave(tries, need, vecs)
    case BatchShrunk => EndedWithCall(need, first, tries) && Last(tries).outcome.TransientFailure?
    case Permanent => EndedWithCall(need, first, tries) && Last(tries).outcome.PermanentFailure?
    case Exhausted => OnlyFailed(first, tries, need)
  }

  ghost predicate EndedWith(first: seq<Try>, tries: seq<Try>) {
    exists need :: EndedWithCall(need, first, tries)
  }

  /** Each way out of a batch was taken for its own reason. */
  ghost predicate Justified(first: seq<Try>, tries: seq<Try>, shrunk: bool, skipped: bool, stored: bool,
                            deferred: bool)
  {
    && (shrunk ==> EndedWith(first, tries) && Last(tries).outcome.TransientFailure?)
    && (skipped ==> EndedWith(first, tries) && Last(tries).outcome.PermanentFailure?)
    && (stored ==> EndedWith(first, tries) && Last(tries).outcome.Vectors?)
    && (deferred ==> exists need :: OnlyFailed(first, tries, need))
  }

  lemma OneMoreFailure(first: seq<Try>, before: seq<Try>, need: seq<int>, t: Try)
    requires OnlyFailed(first, before, need) && t.ids == need && IsFailure(t)
    ensures OnlyFailed(first, before + [t], need)
  {}

  /** A vector that the store cannot take was answered. */
  ghost predicate WrongLength(tries: seq<Try>, dim: nat) {
    && tries != [] && Last(tries).Call? && Last(tries).outcome.Vectors?
    && exists k :: 0 <= k < |Last(tries).ids| && |Last(tries).outcome.of(k)| != dim
  }

  lemma Halving(active: nat, shrinks: nat, batchSz: nat)
    requires active / 2 >= 1 && active * Pow2(shrinks) <= batchSz
    ensures active / 2 * Pow2(shrinks + 1) <= batchSz
    ensures Pow2(shrinks + 1) <= batchSz
  {
    var p, h := Pow2(shrinks), active / 2;
    assert h * (2 * p) == (2 * h) * p;
    assert (2 * h) * p <= active * p;
    assert 1 * (2 * p) <= h * (2 * p);
  }

  lemma {:induction false} CleanIdsKept(ids: seq<Int64>, vecs: seq<Vector>)
    requires |ids| == |vecs|
    ensures forall id :: id in CleanIds(ids, vecs) ==> id in ids
  {
    if ids != [] {
      CleanIdsKept(ids[..|ids| - 1], vecs[..|ids| - 1]);
    }
  }

  /** Chunk ids as the vector store takes them. */
  function AsInt64(ids: seq<int>): (r: seq<Int64>)
    requires forall i :: 0 <= i < |ids| ==> 0 < ids[i] < 0x8000_0000_0000_0000
    ensures r == ids
  {
    seq(|ids|, i requires 0 <= i < |ids| => ids[i] as Int64)
  }

  class EmbedWorker {
    const store: VectorStore
    const cb: CircuitBreaker
    const env: Environment
    const batchSz: nat

    constructor (store: VectorStore, cb: CircuitBreaker, env: Environment, batchSize: int)
      ensures this.store == store && this.cb == cb && this.env == env
      ensures batchSz == (if batchSize <= 0 then 128 else batchSize)
    {
      this.store, this.cb, this.env := store, cb, env;
      batchSz := if batchSize <= 0 then 128 else batchSize;
    }

    // ---- What holds during a run ----

    ghost function Now(source: Store, rs: RunState): Account
      reads store, source, rs
    {
      Account(rs.db0, rs.vecs0, source.Value(), store.vectors, rs.ledger, rs.deferred)
    }

    /** The requests of this run and what they led to. */
    ghost function Fated(rs: RunState): Fates
      reads store, env, rs
    {
      Fates(env.tries, rs.vecs0, store.vectors, rs.ledger.skipped, rs.ledger.rejected, rs.gaveUp)
    }

    ghost function Stands(): Standing
      reads cb, env
    {
      Standing(cb.View(), env.readings, env.answers)
    }

    /** The log has every request of this run: breaker, clock and embedder stand where it leads. */
    ghost predicate LogOk(rs: RunState)
      reads cb, env, rs
    {
      Replays(env.world, rs.origin, env.tries, Stands())
    }

    ghost predicate Since(from: Moment)
      reads env
    {
      from.checks <= env.checks && from.ios <= env.ios
    }

    ghost predicate CountersOk(rs: RunState)
      reads rs
    {
      && batchSz >= 1 && rs.SizesOk(batchSz)
      && rs.embedded == |rs.ledger.marked| && rs.skipped == |rs.ledger.skipped|
    }

    ghost predicate Basics(rs: RunState)
      reads store, cb, env, rs
    {
      CountersOk(rs) && LogOk(rs) && IsExplained(Fated(rs)) && store.Valid()
    }

    /** Holds at every return, errors included. */
    ghost predicate Running(source: Store, rs: RunState)
      reads store, cb, env, source, rs
    {
      Basics(rs) && IsSound(Now(source, rs))
    }

    /** Holds whenever no chunk is being worked on; `deferred` are those held for a retry. */
    ghost predicate Holding(source: Store, rs: RunState, deferred: seq<int>)
      reads store, cb, env, source, rs
    {
      && Basics(rs) && IsAccounted(Fated(rs)) && rs.gaveUp == {}
      && IsSettled(Now(source, rs).(deferred := deferred))
    }

    /** Holds between batches. */
    ghost predicate Between(source: Store, rs: RunState)
      reads store, cb, env, source, rs
    {
      Basics(rs) && IsAccounted(Fated(rs)) && rs.gaveUp == {} && IsSettled(Now(source, rs))
    }

    /** Holds after an answer: all is settled but for that. */
    ghost predicate JustAnswered(rs: RunState)
      reads store, env, rs
    {
      && env.tries != [] && IsAccounted(Fated(rs).(tries := Init(env.tries)))
      && rs.gaveUp == {}
    }

    /** The requests so far were as large as the batch size before each allowed, which is now `activeBatch`. */
    ghost predicate Sized(rs: RunState)
      reads env, rs
    {
      Batches(Plan(batchSz, rs.order, rs.vecs0.Keys), env.tries, rs.activeBatch)
    }

    ghost predicate Fits(rs: RunState, need: seq<int>)
      reads rs
    {
      TakesStretch(Plan(batchSz, rs.order, rs.vecs0.Keys), rs.activeBatch, need)
    }

    /** The next batch as the batch size and the page have it. */
    ghost predicate IsStretch(rs: RunState, batch: seq<int>)
      reads rs
    {
      exists i :: StretchAt(rs.order, rs.activeBatch, batch, i)
    }

    /** An error has its cause in the answers since `from`. */
    ghost predicate Caused(err: RunError, from: Moment)
      reads store, env
    {
      match err
      case NoError => true
      case ContextDone => Saw(env.world.cancelled, from.checks, env.checks)
      case StoreError => Saw(env.world.ioFails, from.ios, env.ios)
      case UpsertError => WrongLength(env.tries, store.dim)
    }

    /** All the quick retries were made, or the run was cancelled meanwhile. */
    ghost predicate TriedEnough(first: seq<Try>, from: Moment)
      reads env
    {
      |env.tries| == |first| + QUICK_RETRIES || Saw(env.world.cancelled, from.checks, env.checks)
    }

    /** Every deferred chunk has had its quick retries, unless the run was cancelled. */
    ghost predicate QuickTried(rs: RunState)
      reads env, rs
    {
      && Since(rs.start)
      && (NamedOften(env.tries, rs.deferred) || Saw(env.world.cancelled, rs.start.checks, env.checks))
    }

    // ---- Embedding with quick retries ----

    /** After a transient error: halve the batch size if that leaves at least one. */
    method ShrinkBatch(rs: RunState) returns (shrunk: bool)
      requires rs.SizesOk(batchSz)
      modifies rs`activeBatch, rs`shrinks, rs`maxShrinks
      ensures rs.SizesOk(batchSz)
      ensures rs.activeBatch == if shrunk then old(rs.activeBatch) / 2 else old(rs.activeBatch)
      ensures shrunk <==> old(rs.activeBatch) >= 2
    {
      var newSz := rs.activeBatch / 2;
      if newSz >= 1 && newSz < rs.activeBatch {
        Halving(rs.activeBatch, rs.shrinks, batchSz);
        rs.activeBatch := newSz;
        rs.shrinks := rs.shrinks + 1;
        if rs.shrinks > rs.maxShrinks {
          rs.maxShrinks := rs.shrinks;
        }
        return true;
      }
      return false;
    }

    method RestoreBatch(rs: RunState)
      requires batchSz >= 1 && rs.SizesOk(batchSz)
      modifies rs`activeBatch, rs`shrinks
      ensures rs.SizesOk(batchSz) && rs.activeBatch == batchSz
    {
      if rs.activeBatch != batchSz {
        rs.activeBatch := batchSz;
      }
      rs.shrinks := 0;
    }

    /** One call that the breaker has let through; not settled if it failed and the batch cannot shrink. */
    method CallEmbedder(need: seq<int>, rs: RunState, ghost p: Standing) returns (settled: bool, r: EmbedResult)
      requires batchSz >= 1 && rs.SizesOk(batchSz) && PassedOn(rs, p)
      modifies cb, env`readings, env`answers, env`tries, rs`activeBatch, rs`shrinks, rs`maxShrinks
      ensures rs.SizesOk(batchSz) && LogOk(rs) && env.answers == old(env.answers) + 1
      ensures env.tries != [] && env.tries == old(env.tries) + [Last(env.tries)]
      ensures Last(env.tries).Call? && Last(env.tries).ids == need
      ensures match Last(env.tries).outcome
              case Vectors(of) =>
                settled && r.Embedded? && Gave(env.tries, need, r.vecs) && rs.activeBatch == batchSz
              case PermanentFailure => settled && r == Permanent && rs.activeBatch == old(rs.activeBatch)
              case TransientFailure =>
                && (settled <==> old(rs.activeBatch) >= 2) && (settled ==> r == BatchShrunk)
                && rs.activeBatch == (if settled then old(rs.activeBatch) / 2 else old(rs.activeBatch))
    {
      ghost var before := env.tries;
      var outcome := env.EmbedBatch(need);
      ReplayGrows(env.world, rs.origin, before, p, Last(env.tries));
      if outcome.Vectors? {
        cb.RecordSuccess();
        RestoreBatch(rs);
        return true, Embedded(Taken(outcome.of, |need|));
      }
      if outcome == PermanentFailure {
        return true, Permanent;
      }
      var now := env.Now();
      cb.RecordFailure(now);
      var shrunk := ShrinkBatch(rs);
      return shrunk, BatchShrunk;
    }

    /** The breaker, asked at `p`, has just let a request through; nothing is logged yet. */
    ghost predicate PassedOn(rs: RunState, p: Standing)
      reads cb, env, rs
    {
      && Replays(env.world, rs.origin, env.tries, p) && Grants(p.breaker, env.world.clock(p.readings))
      && Stands() == Standing(AfterAllow(p.breaker, env.world.clock(p.readings)), p.readings + 1, p.answers)
    }

    /** Asks the breaker; a refusal is the end of this request. */
    method AskBreaker(need: seq<int>, rs: RunState) returns (allowed: bool)
      requires LogOk(rs)
      modifies cb, env`readings, env`tries
      ensures env.readings == old(env.readings) + 1
      ensures allowed <==> Grants(old(cb.View()), env.world.clock(old(env.readings)))
      ensures allowed ==> PassedOn(rs, old(Stands())) && env.tries == old(env.tries)
      ensures !allowed ==> LogOk(rs) && env.tries == old(env.tries) + [Refused(need)]
    {
      ghost var p := Stands();
      var now := env.Now();
      allowed := cb.Allow(now);
      if !allowed {
        ReplayGrows(env.world, rs.origin, env.tries, p, Refused(need));
        env.tries := env.tries + [Refused(need)];
      }
    }

    /**
     Either vectors for all the texts with the full batch size restored, or a halved batch size, or an
     error with the batch size as it was; and each only after the answers that call for it. It gives up
     after three requests that failed or were refused by the breaker, or when the run is cancelled.
     */
    method EmbedWithRetry(need: seq<int>, rs: RunState) returns (r: EmbedResult)
      requires batchSz >= 1 && rs.SizesOk(batchSz) && LogOk(rs) && Sized(rs) && Fits(rs, need)
      modifies cb, env, rs`activeBatch, rs`shrinks, rs`maxShrinks
      ensures rs.SizesOk(batchSz) && LogOk(rs) && Sized(rs) && Since(old(env.Asked()))
      ensures Ended(r, need, old(env.tries), env.tries)
      ensures r == Exhausted ==> TriedEnough(old(env.tries), old(env.Asked()))
      ensures r.Embedded? ==> rs.activeBatch == batchSz
      ensures r == BatchShrunk ==> rs.activeBatch == old(rs.activeBatch) / 2 < old(rs.activeBatch)
      ensures r == Permanent || r == Exhausted ==> rs.activeBatch == old(rs.activeBatch)
    {
      for attempt := 0 to QUICK_RETRIES
        invariant rs.SizesOk(batchSz) && rs.activeBatch == old(rs.activeBatch)
        invariant LogOk(rs) && Sized(rs) && Since(old(env.Asked()))
        invariant OnlyFailed(old(env.tries), env.tries, need) && |env.tries| == |old(env.tries)| + attempt
      {
        var stop;
        stop, r := Attempt(need, rs, old(env.tries));
        if stop {
          return;
        }
      }
      return Exhausted;
    }

    /** One of the quick retries. `first` is the log before them. */
    method Attempt(need: seq<int>, rs: RunState, ghost first: seq<Try>) returns (stop: bool, r: EmbedResult)
      requires batchSz >= 1 && rs.SizesOk(batchSz) && LogOk(rs) && OnlyFailed(first, env.tries, need)
      requires Sized(rs) && Fits(rs, need)
      modifies cb, env, rs`activeBatch, rs`shrinks, rs`maxShrinks
      ensures rs.SizesOk(batchSz) && LogOk(rs) && Sized(rs) && Since(old(env.Asked()))
      ensures if stop then Ended(r, need, first, env.tries) else OnlyFailed(first, env.tries, need)
      ensures stop && r == Exhausted ==> Saw(env.world.cancelled, old(env.checks), env.checks)
      ensures old(env.tries) <= env.tries && |env.tries| <= |old(env.tries)| + 1
      ensures !(stop && r == Exhausted) ==> |env.tries| == |old(env.tries)| + 1
      ensures stop && r.Embedded? ==> rs.activeBatch == batchSz
      ensures stop && r == BatchShrunk ==> rs.activeBatch == old(rs.activeBatch) / 2 < old(rs.activeBatch)
      ensures !stop || r == Permanent || r == Exhausted ==> rs.activeBatch == old(rs.activeBatch)
    {
      var done := env.Cancelled();
      if done {
        return true, Exhausted;
      }
      ghost var before, size := env.tries, rs.activeBatch;
      ghost var p, plan := Stands(), Plan(batchSz, rs.order, rs.vecs0.Keys);
      var allowed := AskBreaker(need, rs);
      if !allowed {
        BatchesGrow(plan, before, size, Refused(need));
        OneMoreFailure(first, before, need, Last(env.tries));
        done := env.Cancelled();
        return done, Exhausted;
      }
      stop, r := CallEmbedder(need, rs, p);
      assert Init(env.tries) == before;
      BatchesGrow(plan, before, size, Last(env.tries));
      if stop {
        return;
      }
      OneMoreFailure(first, before, need, Last(env.tries));
      done := env.Cancelled();
      return done, Exhausted;
    }

    // ---- One batch ----

    /** The ids of the batch without a vector, by asking the store about each. */
    method NeedEmbedding(batch: seq<int>, ghost a: Account) returns (err: RunError, need: seq<int>)
      requires a.vecs == store.vectors && IsSettled(a) && IsNext(a, batch)
      modifies env`ios
      ensures err == NoError ==> IsNeed(a, batch, need)
      ensures Since(old(env.Asked())) && (err == NoError || err == StoreError) && Caused(err, old(env.Asked()))
    {
      BatchIdsFit(a, batch);
      need := [];
      for i := 0 to |batch|
        invariant Elements(need) == Elements(batch[..i]) - store.vectors.Keys
        invariant forall x :: x in need ==> x in batch[..i]
        invariant Ascending(batch) ==> Ascending(need)
        invariant Since(old(env.Asked()))
      {
        var fails := env.IoFails();
        if fails {
          return StoreError, need;
        }
        ElementsStep(batch, i);
        var has := store.Has(batch[i] as Int64);
        if !has {
          NeedMore(batch, i, need);
          need := need + [batch[i]];
        }
      }
      assert batch[..|batch|] == batch;
      OpenBatch(a, batch);
      BatchAscends(a.ledger.marked, batch);
      return NoError, need;
    }

    /** The same, unless the run is cancelled. */
    method LookUp(batch: seq<int>, ghost a: Account) returns (err: RunError, need: seq<int>)
      requires a.vecs == store.vectors && IsSettled(a) && IsNext(a, batch)
      modifies env`checks, env`ios
      ensures err == NoError ==> IsNeed(a, batch, need)
      ensures Since(old(env.Asked())) && Caused(err, old(env.Asked())) && err != UpsertError
    {
      var cancelled := env.Cancelled();
      if cancelled {
        return ContextDone, [];
      }
      err, need := NeedEmbedding(batch, a);
    }

    /** MarkChunksEmbedded and the counter that follows it, at the end of every way through a batch. */
    method MarkBatch(source: Store, batch: seq<int>, rs: RunState) returns (r: BatchResult)
      requires Running(source, rs) && IsSettled(MarkedAccount(Now(source, rs), batch))
      requires IsAccounted(Fated(rs)) && rs.gaveUp == {}
      modifies env`ios, source, rs`embedded, rs`ledger
      ensures Running(source, rs) && Since(old(env.Asked()))
      ensures r == Advanced || (r == Aborted(StoreError) && Caused(StoreError, old(env.Asked())))
      ensures r == Advanced ==> Between(source, rs) && rs.ledger.marked == old(rs.ledger.marked) + batch
    {
      var fails := env.IoFails();
      if fails {
        return Aborted(StoreError);
      }
      ghost var a := MarkedAccount(Now(source, rs), batch);
      ghost var f := Fated(rs);
      source.MarkEmbedded(batch);
      rs.embedded := rs.embedded + |batch|;
      rs.ledger := rs.ledger.(marked := rs.ledger.marked + batch);
      assert Now(source, rs) == a && Fated(rs) == f;
      SettledIsSound(a);
      return Advanced;
    }

    /** Makes the bookings of a batch and marks it. */
    method BookBatch(source: Store, batch: seq<int>, rs: RunState, ghost bk: Booking) returns (r: BatchResult)
      requires batchSz >= 1 && rs.SizesOk(batchSz) && LogOk(rs) && store.Valid() && rs.gaveUp == {}
      requires rs.embedded == |rs.ledger.marked| && rs.skipped == |rs.ledger.skipped + bk.skip|
      requires var b := BookedAccount(Now(source, rs), bk, store.vectors, rs.deferred);
        IsSound(b) && IsSettled(MarkedAccount(b, batch))
      requires var g := BookedFates(Fated(rs), bk); IsExplained(g) && IsAccounted(g)
      modifies env`ios, source, rs`embedded, rs`ledger
      ensures Running(source, rs) && Since(old(env.Asked()))
      ensures r == Advanced || (r == Aborted(StoreError) && Caused(StoreError, old(env.Asked())))
      ensures r == Advanced ==> Between(source, rs) && rs.ledger.marked == old(rs.ledger.marked) + batch
    {
      ghost var a, f := Now(source, rs), Fated(rs);
      rs.ledger := WithBooking(rs.ledger, bk);
      assert Now(source, rs) == BookedAccount(a, bk, store.vectors, a.deferred);
      assert Fated(rs) == BookedFates(f, bk);
      r := MarkBatch(source, batch, rs);
    }

    /**
     Chunks that have a vector are only marked; the others are embedded first, or skipped, or deferred. A
     halved batch size leaves everything else as it was.
     */
    method ReconcileAndEmbed(source: Store, batch: seq<int>, rs: RunState) returns (r: BatchResult)
      requires Between(source, rs) && IsNext(Now(source, rs), batch) && Sized(rs) && IsStretch(rs, batch)
      modifies store`vectors, cb, env, source, rs
      ensures Running(source, rs) && Since(old(env.Asked())) && Sized(rs)
      ensures r == Advanced ==> Between(source, rs) && rs.ledger.marked == old(rs.ledger.marked) + batch
      ensures r == Shrunk ==>
                && Between(source, rs) && rs.ledger == old(rs.ledger)
                && rs.activeBatch == old(rs.activeBatch) / 2 < old(rs.activeBatch)
      ensures r.Aborted? ==> r.error != NoError && Caused(r.error, old(env.Asked()))
      ensures Justified(old(env.tries), env.tries, r == Shrunk, rs.skipped != old(rs.skipped),
                        store.vectors != old(store.vectors), rs.deferred != old(rs.deferred))
      ensures rs.deferred != old(rs.deferred) ==> TriedEnough(old(env.tries), old(env.Asked()))
      ensures old(QuickTried(rs)) ==> QuickTried(rs)
    {
      ghost var a := Now(source, rs);
      SettledIsSound(a);
      var err, need := LookUp(batch, a);
      if err != NoError {
        return Aborted(err);
      }
      r := Settle(source, batch, need, rs);
    }

    /** The rest of it, once the chunks without a vector are known. */
    method Settle(source: Store, batch: seq<int>, need: seq<int>, rs: RunState) returns (r: BatchResult)
      requires Between(source, rs) && Sized(rs) && IsStretch(rs, batch)
      requires IsNext(Now(source, rs), batch) && IsNeed(Now(source, rs), batch, need)
      modifies store`vectors, cb, env, source, rs
      ensures Running(source, rs) && Since(old(env.Asked())) && Sized(rs)
      ensures r == Advanced ==> Between(source, rs) && rs.ledger.marked == old(rs.ledger.marked) + batch
      ensures r == Shrunk ==>
                && Between(source, rs) && rs.ledger == old(rs.ledger)
                && rs.activeBatch == old(rs.activeBatch) / 2 < old(rs.activeBatch)
      ensures r.Aborted? ==> r.error != NoError && Caused(r.error, old(env.Asked()))
      ensures Justified(old(env.tries), env.tries, r == Shrunk, rs.skipped != old(rs.skipped),
                        store.vectors != old(store.vectors), rs.deferred != old(rs.deferred))
      ensures rs.deferred != old(rs.deferred) ==> TriedEnough(old(env.tries), old(env.Asked()))
      ensures old(QuickTried(rs)) ==> QuickTried(rs)
    {
      if |need| == 0 {
        SettledIsSound(Now(source, rs));
        NothingStep(Now(source, rs), batch, need);
        r := MarkBatch(source, batch, rs);
        return;
      }
      ghost var first, before, from := env.tries, rs.deferred, env.Asked();
      ghost var i :| StretchAt(rs.order, rs.activeBatch, batch, i);
      NeedFits(Now(source, rs), batch, need, Plan(batchSz, rs.order, rs.vecs0.Keys), rs.activeBatch, i);
      r := EmbedNeeded(source, batch, need, rs);
      if old(QuickTried(rs)) {
        QuickTriedStays(rs, first, before, need, from);
      }
    }

    lemma QuickTriedStays(rs: RunState, first: seq<Try>, before: seq<int>, need: seq<int>, from: Moment)
      requires first <= env.tries && Since(from) && rs.start.checks <= from.checks && rs.start.ios <= from.ios
      requires NamedOften(first, before) || Saw(env.world.cancelled, rs.start.checks, from.checks)
      requires rs.deferred != before ==>
                 && OnlyFailed(first, env.tries, need) && TriedEnough(first, from)
                 && rs.deferred == before + need
      ensures QuickTried(rs)
    {
      if NamedOften(first, before) {
        StillNamedOften(first, env.tries, before, need);
      }
    }

    /** The chunks of the batch that need a vector; every way out of it is taken for its own reason. */
    method EmbedNeeded(source: Store, batch: seq<int>, need: seq<int>, rs: RunState) returns (r: BatchResult)
      requires Between(source, rs) && Sized(rs) && Fits(rs, need)
      requires IsNext(Now(source, rs), batch) && IsNeed(Now(source, rs), batch, need)
      modifies store`vectors, cb, env, source, rs
      ensures Running(source, rs) && Since(old(env.Asked())) && Sized(rs)
      ensures r == Advanced ==> Between(source, rs) && rs.ledger.marked == old(rs.ledger.marked) + batch
      ensures r == Shrunk ==>
                && Between(source, rs) && rs.ledger == old(rs.ledger)
                && rs.activeBatch == old(rs.activeBatch) / 2 < old(rs.activeBatch)
      ensures r.Aborted? ==> r.error != NoError && Caused(r.error, old(env.Asked()))
      ensures Justified(old(env.tries), env.tries, r == Shrunk, rs.skipped != old(rs.skipped),
                        store.vectors != old(store.vectors), rs.deferred != old(rs.deferred))
      ensures rs.deferred != old(rs.deferred) ==>
                && OnlyFailed(old(env.tries), env.tries, need) && TriedEnough(old(env.tries), old(env.Asked()))
                && rs.deferred == old(rs.deferred) + need
      ensures old(env.tries) <= env.tries
    {
      ghost var a, f := Now(source, rs), Fated(rs);
      var result := EmbedWithRetry(need, rs);
      assert Now(source, rs) == a;
      MoreTries(f, env.tries);
      assert Fated(rs) == f.(tries := env.tries);
      assert Fated(rs).(tries := f.tries) == f;
      r := Follow(source, batch, need, rs, result, old(env.tries));
    }

    /** What an embedding result means for the batch. `first` is the log before it. */
    method Follow(source: Store, batch: seq<int>, need: seq<int>, rs: RunState, result: EmbedResult,
                  ghost first: seq<Try>)
      returns (r: BatchResult)
      requires Basics(rs) && rs.gaveUp == {} && IsSettled(Now(source, rs))
      requires IsNext(Now(source, rs), batch) && IsNeed(Now(source, rs), batch, need)
      requires IsAccounted(Fated(rs).(tries := first)) && Ended(result, need, first, env.tries)
      modifies store`vectors, env`ios, source, rs`skipped, rs`deferred, rs`embedded, rs`ledger
      ensures Running(source, rs) && (r == Shrunk <==> result == BatchShrunk) && Since(old(env.Asked()))
      ensures r.Aborted? ==> r.error != NoError && Caused(r.error, old(env.Asked()))
      ensures r == Advanced ==> Between(source, rs) && rs.ledger.marked == old(rs.ledger.marked) + batch
      ensures r == Shrunk ==> Between(source, rs) && rs.ledger == old(rs.ledger)
      ensures rs.skipped != old(rs.skipped) ==> result == Permanent
      ensures store.vectors != old(store.vectors) ==> result.Embedded?
      ensures rs.deferred != old(rs.deferred) ==> result == Exhausted && rs.deferred == old(rs.deferred) + need
    {
      ghost var f := Fated(rs).(tries := first);
      SettledIsSound(Now(source, rs));
      if result == Exhausted {
        FailuresAccounted(f, env.tries, need);
        assert Fated(rs) == f.(tries := env.tries);
        r := DeferBatch(source, batch, need, rs);
        return;
      }
      FailuresAccounted(f, Init(env.tries), need);
      assert Fated(rs).(tries := Init(env.tries)) == f.(tries := Init(env.tries));
      match result
      case BatchShrunk =>
        FailuresAccounted(f, env.tries, need);
        assert Fated(rs) == f.(tries := env.tries);
        return Shrunk;
      case Permanent =>
        r := SkipBatch(source, batch, need, rs);
      case Embedded(vecs) =>
        r := StoreBatch(source, batch, need, vecs, rs);
    }

    /** Permanent error: the needed chunks are skipped for good. */
    method SkipBatch(source: Store, batch: seq<int>, need: seq<int>, rs: RunState) returns (r: BatchResult)
      requires Basics(rs) && JustAnswered(rs) && IsSettled(Now(source, rs))
      requires IsNext(Now(source, rs), batch) && IsNeed(Now(source, rs), batch, need)
      requires Last(env.tries).Call? && Last(env.tries).ids == need && Last(env.tries).outcome.PermanentFailure?
      modifies env`ios, source, rs`skipped, rs`embedded, rs`ledger
      ensures Running(source, rs) && Since(old(env.Asked()))
      ensures r == Advanced || (r == Aborted(StoreError) && Caused(StoreError, old(env.Asked())))
      ensures r == Advanced ==> Between(source, rs) && rs.ledger.marked == old(rs.ledger.marked) + batch
    {
      ghost var a, bk, f := Now(source, rs), Booking(Elements(need), {}, {}), Fated(rs);
      SkipStep(a, batch, need);
      SkipExplained(f, need);
      assert f.(skipped := f.skipped + Elements(need)) == BookedFates(f, bk);
      rs.skipped := rs.skipped + |need|;
      r := BookBatch(source, batch, rs, bk);
    }

    /** Transient failure after retries: the needed chunks wait for the second phase, but are marked. */
    method DeferBatch(source: Store, batch: seq<int>, need: seq<int>, rs: RunState) returns (r: BatchResult)
      requires Between(source, rs) && IsNext(Now(source, rs), batch) && IsNeed(Now(source, rs), batch, need)
      modifies env`ios, source, rs`deferred, rs`embedded, rs`ledger
      ensures Running(source, rs) && Since(old(env.Asked()))
      ensures r == Advanced || (r == Aborted(StoreError) && Caused(StoreError, old(env.Asked())))
      ensures r == Advanced ==> Between(source, rs) && rs.ledger.marked == old(rs.ledger.marked) + batch
      ensures rs.deferred == old(rs.deferred) + need
    {
      ghost var a, bk, f := Now(source, rs), Booking({}, {}, Elements(need)), Fated(rs);
      DeferStep(a, batch, need);
      rs.deferred := rs.deferred + need;
      assert BookedAccount(a, bk, a.vecs, a.deferred + need)
        == BookedAccount(Now(source, rs), bk, store.vectors, rs.deferred);
      assert Fated(rs) == f == BookedFates(f, bk) && rs.ledger.skipped + {} == rs.ledger.skipped;
      r := BookBatch(source, batch, rs, bk);
    }

    /** Sanitizes the vectors and upserts those that are left; the store refuses a wrong length. */
    method UpsertClean(ids: seq<Int64>, vecs: seq<Vector>) returns (err: RunError, cleanIds: seq<Int64>)
      requires store.Valid() && |ids| == |vecs|
      modifies store`vectors, env`ios
      ensures store.Valid() && Since(old(env.Asked()))
      ensures err == NoError ==>
                && cleanIds == CleanIds(ids, vecs) && |cleanIds| == |CleanVecs(vecs)|
                && store.vectors == Inserted(old(store.vectors), cleanIds, CleanVecs(vecs))
      ensures err != NoError ==> store.vectors == old(store.vectors)
      ensures err == StoreError ==> Saw(env.world.ioFails, old(env.ios), env.ios)
      ensures err == UpsertError ==> exists k :: 0 <= k < |vecs| && |vecs[k]| != store.dim
      ensures err != ContextDone
    {
      var cleanVecs, rejected;
      cleanIds, cleanVecs, rejected := SanitizeEmbeddings(ids, vecs);
      if |cleanIds| > 0 {
        var fails := env.IoFails();
        if fails {
          return StoreError, cleanIds;
        }
        var ok := store.UpsertBatch(cleanIds, cleanVecs);
        if !ok {
          ghost var i :| 0 <= i < |cleanVecs| && |cleanVecs[i]| != store.dim;
          ghost var k := CleanVecsFrom(vecs, cleanVecs[i]);
          return UpsertError, cleanIds;
        }
      }
      return NoError, cleanIds;
    }

    /** Success: sanitize, upsert what is left, mark. */
    method StoreBatch(source: Store, batch: seq<int>, need: seq<int>, vecs: seq<Vector>, rs: RunState)
      returns (r: BatchResult)
      requires Basics(rs) && JustAnswered(rs) && IsSettled(Now(source, rs))
      requires IsNext(Now(source, rs), batch) && IsNeed(Now(source, rs), batch, need)
      requires Gave(env.tries, need, vecs)
      modifies store`vectors, env`ios, source, rs`embedded, rs`ledger
      ensures Running(source, rs) && r != Shrunk && Since(old(env.Asked()))
      ensures r.Aborted? ==> r.error != NoError && Caused(r.error, old(env.Asked()))
      ensures r == Advanced ==> Between(source, rs) && rs.ledger.marked == old(rs.ledger.marked) + batch
    {
      ghost var a, f := Now(source, rs), Fated(rs);
      SettledIsSound(a);
      NeededIdsFit(a, batch, need);
      assert forall i :: 0 <= i < |need| ==> need[i] in need;
      var needIds := AsInt64(need);
      var err, cleanIds := UpsertClean(needIds, vecs);
      if err != NoError {
        return Aborted(err);
      }
      ghost var bk := Booking({}, Elements(need) - Elements(cleanIds), {});
      StoreSteps(a, f, batch, need, needIds, vecs);
      assert BookedAccount(a, bk, store.vectors, a.deferred)
        == BookedAccount(Now(source, rs), bk, store.vectors, rs.deferred);
      assert Stored(f, needIds, vecs) == BookedFates(Fated(rs), bk);
      assert rs.ledger.skipped + {} == rs.ledger.skipped;
      r := BookBatch(source, batch, rs, bk);
    }

    // ---- Second phase ----

    /** One deferred chunk, tried on its own. `pre` and `post` are the others held at that moment. */
    method RetryOne(source: Store, rs: RunState, id: int, ghost pre: seq<int>, ghost post: seq<int>)
      returns (r: RetryResult)
      requires Holding(source, rs, pre + [id] + post)
      modifies store`vectors, cb, env, rs`skipped, rs`ledger
      ensures Basics(rs) && rs.ledger.marked == old(rs.ledger.marked) && Since(old(env.Asked()))
      ensures r == Gone ==> Holding(source, rs, pre + post)
      ensures r == StillFailing ==> Holding(source, rs, pre + [id] + post)
      ensures !r.GaveUp? ==> OneTry(old(env.tries), env.tries, id, r == StillFailing)
      ensures SinglesSince(old(env.tries), env.tries)
      ensures r.GaveUp? ==>
                && IsSettled(Now(source, rs).(deferred := pre + [id] + post))
                && r.error != NoError && Caused(r.error, old(env.Asked()))
    {
      var cancelled := env.Cancelled();
      if cancelled {
        return GaveUp(ContextDone);
      }
      ghost var a, f := Now(source, rs).(deferred := pre + [id] + post), Fated(rs);
      ghost var p := Stands();
      var allowed := AskBreaker([id], rs);
      if !allowed {
        MoreTries(f, env.tries);
        FailuresAccounted(f, env.tries, [id]);
        assert Fated(rs) == f.(tries := env.tries);
        assert Now(source, rs).(deferred := pre + [id] + post) == a;
        return StillFailing;
      }
      r := RetryCall(source, rs, id, pre, post, p);
    }

    method RetryCall(source: Store, rs: RunState, id: int, ghost pre: seq<int>, ghost post: seq<int>,
                     ghost p: Standing)
      returns (r: RetryResult)
      requires CountersOk(rs) && PassedOn(rs, p) && IsExplained(Fated(rs)) && store.Valid()
      requires IsAccounted(Fated(rs)) && rs.gaveUp == {}
      requires IsSettled(Now(source, rs).(deferred := pre + [id] + post))
      modifies store`vectors, cb, env, rs`skipped, rs`ledger
      ensures Basics(rs) && rs.ledger.marked == old(rs.ledger.marked) && Since(old(env.Asked()))
      ensures r == Gone ==> Holding(source, rs, pre + post)
      ensures r == StillFailing ==> Holding(source, rs, pre + [id] + post)
      ensures OneTry(old(env.tries), env.tries, id, r == StillFailing)
      ensures Last(env.tries).Call?
      ensures r.GaveUp? ==>
                && IsSettled(Now(source, rs).(deferred := pre + [id] + post))
                && r.error != NoError && Caused(r.error, old(env.Asked()))
    {
      ghost var a, f := Now(source, rs).(deferred := pre + [id] + post), Fated(rs);
      var outcome := CallAlone(id, rs, p);
      MoreTries(f, env.tries);
      assert Fated(rs) == f.(tries := env.tries) && Init(env.tries) == f.tries;
      assert Fated(rs).(tries := Init(env.tries)) == f;
      assert Now(source, rs).(deferred := pre + [id] + post) == a;
      match outcome
      case PermanentFailure =>
        SkipRetried(source, rs, id, pre, post);
        return Gone;
      case TransientFailure =>
        FailuresAccounted(f, env.tries, [id]);
        return StillFailing;
      case Vectors(of) =>
        r := StoreRetried(source, rs, id, of(0), pre, post);
    }

    /** The call for one chunk; a permanent error is not reported to the breaker. */
    method CallAlone(id: int, rs: RunState, ghost p: Standing) returns (outcome: EmbedOutcome)
      requires PassedOn(rs, p)
      modifies cb, env`readings, env`answers, env`tries
      ensures LogOk(rs) && env.answers == old(env.answers) + 1
      ensures env.tries != [] && env.tries == old(env.tries) + [Last(env.tries)]
      ensures Last(env.tries).Call? && Last(env.tries).ids == [id] && Last(env.tries).outcome == outcome
    {
      ghost var before := env.tries;
      outcome := env.EmbedBatch([id]);
      ReplayGrows(env.world, rs.origin, before, p, Last(env.tries));
      match outcome
      case PermanentFailure =>
      case TransientFailure =>
        var now := env.Now();
        cb.RecordFailure(now);
      case Vectors(_) =>
        cb.RecordSuccess();
    }

    /** A vector for one chunk: dropped with it if unhealthy, else stored. */
    method StoreRetried(source: Store, rs: RunState, id: int, v: Vector, ghost pre: seq<int>, ghost post: seq<int>)
      returns (r: RetryResult)
      requires Basics(rs) && JustAnswered(rs)
      requires IsSettled(Now(source, rs).(deferred := pre + [id] + post))
      requires Gave(env.tries, [id], [v])
      modifies store`vectors, env`ios, rs`skipped, rs`ledger
      ensures Basics(rs) && rs.ledger.marked == old(rs.ledger.marked) && Since(old(env.Asked()))
      ensures r == Gone ==> Holding(source, rs, pre + post)
      ensures r.GaveUp? ==>
                && IsSettled(Now(source, rs).(deferred := pre + [id] + post))
                && r.error != NoError && Caused(r.error, old(env.Asked()))
      ensures r != StillFailing
    {
      ghost var a := Now(source, rs).(deferred := pre + [id] + post);
      WaitingIdsFit(a);
      assert id in a.deferred;
      var id64 := id as Int64;
      var cleanIds, cleanVecs, rejected := SanitizeEmbeddings([id64], [v]);
      CleanSingle(id64, v);
      assert [v][0] == v;
      if |cleanIds| == 0 {
        SkipRetried(source, rs, id, pre, post);
        return Gone;
      }
      r := KeepRetried(source, rs, id64, v, pre, post);
    }

    method KeepRetried(source: Store, rs: RunState, id: Int64, v: Vector, ghost pre: seq<int>, ghost post: seq<int>)
      returns (r: RetryResult)
      requires Basics(rs) && JustAnswered(rs)
      requires IsSettled(Now(source, rs).(deferred := pre + [id] + post))
      requires Gave(env.tries, [id], [v]) && Healthy(v)
      modifies store`vectors, env`ios, rs`ledger
      ensures Basics(rs) && rs.ledger.marked == old(rs.ledger.marked) && Since(old(env.Asked()))
      ensures r == Gone ==> Holding(source, rs, pre + post)
      ensures r.GaveUp? ==>
                && IsSettled(Now(source, rs).(deferred := pre + [id] + post))
                && r.error != NoError && Caused(r.error, old(env.Asked()))
      ensures r != StillFailing
    {
      ghost var a, f := Now(source, rs).(deferred := pre + [id] + post), Fated(rs);
      var fails := env.IoFails();
      if fails {
        return GaveUp(StoreError);
      }
      assert [v][0] == v;
      var ok := store.Upsert(id, v);
      if !ok {
        return GaveUp(UpsertError);
      }
      RetryStores(a, pre, id, post, v);
      RetryStoreExplained(f, id, v);
      rs.ledger := rs.ledger.(waiting := rs.ledger.waiting - {id});
      assert Now(source, rs).(deferred := pre + post) == Retried(a, id, false, a.vecs[id := v], pre + post);
      assert Fated(rs) == f.(vecs := f.vecs[id := v]);
      return Gone;
    }

    method SkipRetried(source: Store, rs: RunState, id: int, ghost pre: seq<int>, ghost post: seq<int>)
      requires Basics(rs) && JustAnswered(rs)
      requires IsSettled(Now(source, rs).(deferred := pre + [id] + post))
      requires SkipsOne(Last(env.tries), id)
      modifies rs`skipped, rs`ledger
      ensures Holding(source, rs, pre + post) && rs.ledger.marked == old(rs.ledger.marked)
    {
      ghost var a := Now(source, rs).(deferred := pre + [id] + post);
      RetrySkips(a, pre, id, post);
      ghost var f := Fated(rs);
      RetrySkipExplained(f, id);
      rs.skipped := rs.skipped + 1;
      rs.ledger := rs.ledger.(waiting := rs.ledger.waiting - {id}, skipped := rs.ledger.skipped + {id});
      assert Now(source, rs).(deferred := pre + post) == Retried(a, id, true, a.vecs, pre + post);
      assert Fated(rs) == f.(skipped := f.skipped + {id});
    }

    /** One pass over the deferred chunks: each is requested once, in order, and kept if that failed. */
    method RetryPass(source: Store, rs: RunState) returns (err: RunError)
      requires Between(source, rs)
      modifies store`vectors, cb, env, rs`skipped, rs`ledger, rs`deferred
      ensures Running(source, rs) && rs.ledger.marked == old(rs.ledger.marked) && Since(old(env.Asked()))
      ensures err == NoError ==> Between(source, rs)
      ensures err == NoError ==> PassTaken(old(env.tries), env.tries, old(rs.deferred), rs.deferred)
      ensures SinglesSince(old(env.tries), env.tries)
      ensures Caused(err, old(env.Asked()))
    {
      var stillFailing;
      err, stillFailing := TryEach(source, rs, rs.deferred);
      if err == NoError {
        rs.deferred := stillFailing;
        assert Now(source, rs) == Now(source, rs).(deferred := stillFailing);
        SettledIsSound(Now(source, rs));
      }
    }

    method TryEach(source: Store, rs: RunState, jobs: seq<int>) returns (err: RunError, stillFailing: seq<int>)
      requires Holding(source, rs, jobs)
      modifies store`vectors, cb, env, rs`skipped, rs`ledger
      ensures err != NoError ==> Running(source, rs)
      ensures rs.ledger.marked == old(rs.ledger.marked) && Since(old(env.Asked()))
      ensures err == NoError ==> Holding(source, rs, stillFailing)
      ensures err == NoError ==> PassTaken(old(env.tries), env.tries, jobs, stillFailing)
      ensures SinglesSince(old(env.tries), env.tries)
      ensures Caused(err, old(env.Asked()))
    {
      err, stillFailing := NoError, [];
      assert stillFailing + jobs[0..] == jobs && jobs[..0] == [];
      PassStart(env.tries);
      for k := 0 to |jobs|
        invariant Holding(source, rs, stillFailing + jobs[k..]) && rs.ledger.marked == old(rs.ledger.marked)
        invariant err == NoError && Since(old(env.Asked()))
        invariant PassTaken(old(env.tries), env.tries, jobs[..k], stillFailing)
        invariant SinglesSince(old(env.tries), env.tries)
      {
        err, stillFailing := PassStep(source, rs, jobs, k, stillFailing, old(env.tries));
        if err != NoError {
          return;
        }
      }
      assert stillFailing + jobs[|jobs|..] == stillFailing && jobs[..|jobs|] == jobs;
    }

    /** The pass goes on with its next chunk. `first` is the log before the pass. */
    method PassStep(source: Store, rs: RunState, jobs: seq<int>, k: nat, stillFailing: seq<int>,
                    ghost first: seq<Try>)
      returns (err: RunError, left: seq<int>)
      requires k < |jobs| && Holding(source, rs, stillFailing + jobs[k..])
      requires PassTaken(first, env.tries, jobs[..k], stillFailing)
      modifies store`vectors, cb, env, rs`skipped, rs`ledger
      ensures Running(source, rs) && rs.ledger.marked == old(rs.ledger.marked) && Since(old(env.Asked()))
      ensures err == NoError ==> Holding(source, rs, left + jobs[k + 1..])
      ensures err == NoError ==> PassTaken(first, env.tries, jobs[..k + 1], left)
      ensures SinglesSince(old(env.tries), env.tries)
      ensures Caused(err, old(env.Asked()))
    {
      Advance(stillFailing, jobs, k);
      ghost var before := env.tries;
      var r := RetryOne(source, rs, jobs[k], stillFailing, jobs[k + 1..]);
      left := stillFailing;
      match r
      case StillFailing =>
        PassGoesOn(first, before, env.tries, jobs, k, stillFailing, true);
        left := left + [jobs[k]];
        SoundAnyway(source, rs, left + jobs[k + 1..]);
        err := NoError;
      case Gone =>
        PassGoesOn(first, before, env.tries, jobs, k, stillFailing, false);
        SoundAnyway(source, rs, left + jobs[k + 1..]);
        err := NoError;
      case GaveUp(e) =>
        SoundAnyway(source, rs, stillFailing + [jobs[k]] + jobs[k + 1..]);
        err := e;
    }

    lemma SoundAnyway(source: Store, rs: RunState, deferred: seq<int>)
      requires IsSettled(Now(source, rs).(deferred := deferred))
      ensures IsSound(Now(source, rs))
    {
      var a := Now(source, rs).(deferred := deferred);
      SettledIsSound(a);
      SoundWhateverDeferred(a, rs.deferred);
      assert Now(source, rs) == a.(deferred := rs.deferred);
    }

    /** Three passes, unless nothing is left before; what still fails then is counted as skipped. */
    method RetryDeferred(source: Store, rs: RunState) returns (err: RunError)
      requires Between(source, rs)
      modifies store`vectors, cb, env, rs`skipped, rs`ledger, rs`deferred, rs`gaveUp
      ensures Running(source, rs) && rs.ledger.marked == old(rs.ledger.marked) && Since(old(env.Asked()))
      ensures err == NoError ==> rs.ledger.waiting == {} && IsSettled(Now(source, rs).(deferred := []))
      ensures err == NoError ==>
                && rs.gaveUp == Elements(rs.deferred)
                && PassesTaken(old(env.tries), env.tries, old(rs.deferred), MAX_PASSES, rs.deferred)
      ensures SinglesSince(old(env.tries), env.tries)
      ensures Caused(err, old(env.Asked()))
    {
      SettledIsSound(Now(source, rs));
      NoPasses(env.tries, rs.deferred);
      if |rs.deferred| == 0 {
        NoneWaiting(Now(source, rs));
        assert Now(source, rs).(deferred := []) == Now(source, rs);
        return NoError;
      }
      err := TakePasses(source, rs);
      if err == NoError {
        CountLeft(source, rs);
      }
    }

    method TakePasses(source: Store, rs: RunState) returns (err: RunError)
      requires Between(source, rs) && rs.deferred != []
      modifies store`vectors, cb, env, rs`skipped, rs`ledger, rs`deferred
      ensures Running(source, rs) && rs.ledger.marked == old(rs.ledger.marked) && Since(old(env.Asked()))
      ensures err == NoError ==>
                && Between(source, rs)
                && PassesTaken(old(env.tries), env.tries, old(rs.deferred), MAX_PASSES, rs.deferred)
      ensures SinglesSince(old(env.tries), env.tries)
      ensures Caused(err, old(env.Asked()))
    {
      SettledIsSound(Now(source, rs));
      NoPasses(env.tries, rs.deferred);
      ghost var passes := 0;
      for pass := 0 to MAX_PASSES
        invariant Between(source, rs) && Running(source, rs)
        invariant rs.ledger.marked == old(rs.ledger.marked) && Since(old(env.Asked())) && passes == pass
        invariant PassesTaken(old(env.tries), env.tries, old(rs.deferred), passes, rs.deferred)
        invariant SinglesSince(old(env.tries), env.tries)
      {
        if |rs.deferred| == 0 {
          break;
        }
        ghost var before, jobs := env.tries, rs.deferred;
        err := RetryPass(source, rs);
        if err != NoError {
          return err;
        }
        PassesGoOn(old(env.tries), before, env.tries, old(rs.deferred), jobs, rs.deferred, pass);
        passes := pass + 1;
        if |rs.deferred| > 0 {
          var cancelled := env.Cancelled();
          if cancelled {
            return ContextDone;
          }
        }
      }
      NoMorePasses(old(env.tries), env.tries, old(rs.deferred), passes, rs.deferred);
      return NoError;
    }

    /** Chunks that still fail after the last pass. */
    method CountLeft(source: Store, rs: RunState)
      requires Between(source, rs)
      modifies rs`skipped, rs`ledger, rs`gaveUp
      ensures Running(source, rs) && rs.ledger.marked == old(rs.ledger.marked)
      ensures rs.ledger.waiting == {} && IsSettled(Now(source, rs).(deferred := []))
      ensures rs.gaveUp == Elements(rs.deferred)
    {
      ghost var a := Now(source, rs);
      GiveUp(a);
      NoneWaitingUnless(a);
      WaitingIsUnbooked(a);
      ghost var f := Fated(rs);
      GiveUpExplained(f, rs.ledger.waiting);
      rs.gaveUp := rs.ledger.waiting;
      if |rs.deferred| > 0 {
        rs.skipped := rs.skipped + |rs.deferred|;
      }
      rs.ledger := rs.ledger.(waiting := {}, skipped := rs.ledger.skipped + rs.ledger.waiting);
      ghost var b := Now(source, rs).(deferred := []);
      assert b == a.(deferred := [], ledger := a.ledger.(waiting := {},
          skipped := a.ledger.skipped + a.ledger.waiting));
      SettledIsSound(b);
      SoundWhateverDeferred(b, rs.deferred);
      assert Now(source, rs) == b.(deferred := rs.deferred);
      assert Fated(rs) == f.(skipped := f.skipped + a.ledger.waiting, gaveUp := a.ledger.waiting);
    }

    // ---- The run ----

    /** Batches of one page, each as large as the batch size then allows. */
    method EmbedPage(source: Store, rs: RunState, last: int, page: seq<int>) returns (err: RunError)
      requires Between(source, rs) && AtCursor(Now(source, rs), last)
      requires page == Page(Unembedded(source.Value()), last, PAGE_SIZE) && page != []
      requires Sized(rs) && IsOrder(rs.order, Unembedded(rs.db0)) && |rs.ledger.marked| % PAGE_SIZE == 0
      modifies store`vectors, cb, env, source, rs
      ensures Running(source, rs) && Since(old(env.Asked())) && Caused(err, old(env.Asked())) && Sized(rs)
      ensures old(QuickTried(rs)) ==> QuickTried(rs)
      ensures err == NoError ==>
                && Between(source, rs) && rs.ledger.marked == old(rs.ledger.marked) + page
                && AtCursor(Now(source, rs), page[|page| - 1])
    {
      ghost var a := Now(source, rs);
      SettledIsSound(a);
      PageFollows(a, last, page, PAGE_SIZE, rs.order);
      var i := 0;
      while i < |page|
        invariant 0 <= i <= |page| && Sized(rs)
        invariant Between(source, rs) && Running(source, rs)
        invariant PageMarked(a, page, i, Now(source, rs))
        invariant Since(old(env.Asked())) && (old(QuickTried(rs)) ==> QuickTried(rs))
        decreases |page| - i, rs.activeBatch
      {
        var r, end := NextOfPage(source, rs, page, i, last, a);
        match r
        case Shrunk =>
          SettledIsSound(Now(source, rs));
        case Aborted(e) =>
          return e;
        case Advanced =>
          i := end;
      }
      PageDone(a, last, page, PAGE_SIZE, Now(source, rs));
      assert page[..|page|] == page;
      return NoError;
    }

    /** One batch of the page; `a` is the account when the page was read. */
    method NextOfPage(source: Store, rs: RunState, page: seq<int>, i: nat, last: int, ghost a: Account)
      returns (r: BatchResult, end: nat)
      requires IsSettled(a) && AtCursor(a, last) && page == Page(Unembedded(a.db), last, PAGE_SIZE)
      requires i < |page| && PageMarked(a, page, i, Now(source, rs)) && Between(source, rs) && Sized(rs)
      requires FollowsInOrder(a.ledger.marked, page, PAGE_SIZE, rs.order) && |a.ledger.marked| % PAGE_SIZE == 0
      modifies store`vectors, cb, env, source, rs
      ensures Running(source, rs) && Since(old(env.Asked())) && Sized(rs)
      ensures old(QuickTried(rs)) ==> QuickTried(rs)
      ensures r == Advanced ==> i < end <= |page| && Between(source, rs) && PageMarked(a, page, end, Now(source, rs))
      ensures r == Shrunk ==>
                && Between(source, rs) && PageMarked(a, page, i, Now(source, rs))
                && rs.activeBatch < old(rs.activeBatch)
      ensures r.Aborted? ==> r.error != NoError && Caused(r.error, old(env.Asked()))
    {
      end := i + rs.activeBatch;
      if end > |page| {
        end := |page|;
      }
      PageBatch(a, last, page, PAGE_SIZE, Now(source, rs), i, end);
      PageSlice(a.ledger.marked, page, rs.order);
      StretchOfPage(rs.order, page, |a.ledger.marked|, i, rs.activeBatch);
      MarkedStretch(a.ledger.marked, page, i, end);
      r := ReconcileAndEmbed(source, page[i..end], rs);
    }

    /**
     RunFromDB. Without an error every chunk that needed embedding has been marked exactly once, in id
     order, and is stored, skipped or rejected: `RunComplete` has the account. With an error the books are
     still sound, and the error has a cause. In either case every new vector is a healthy one that the
     embedder returned for that very chunk, a dropped chunk was refused for good or answered badly, and a
     chunk given up had all its quick retries (unless a cancellation was taken back) and passes, each of which
     failed or was refused by the breaker. The log accounts for every answer of the embedder and every reading
     of the clock since the start. In a good world nothing is dropped.
     */
    method RunFromDB(source: Store) returns (err: RunError, rs: RunState)
      requires batchSz >= 1 && store.Valid() && IdsFit(source.Value())
      modifies store`vectors, cb, env, source
      ensures fresh(rs) && store.Valid()
      ensures rs.db0 == old(source.Value()) && rs.vecs0 == old(store.vectors) && rs.origin == old(Stands())
      ensures rs.start == old(env.Asked())
      ensures SoundAccount(Now(source, rs)) && Explained(Fated(rs)) && LogOk(rs)
      ensures IsLog(env.world, rs.origin, env.tries)
      ensures Stands() == StandingAt(env.world, rs.origin, env.tries, |env.tries|)
      ensures rs.embedded == |rs.ledger.marked| && rs.skipped == |rs.ledger.skipped|
      ensures Consistent(rs.db0) ==> Consistent(source.Value())
      ensures err == NoError ==>
                && RunComplete(Now(source, rs))
                && rs.embedded == rs.total == |Unembedded(rs.db0)|
                && rs.total == |Unembedded(rs.db0) * store.vectors.Keys| + rs.skipped + |rs.ledger.rejected|
      ensures err == NoError ==> forall id :: id in rs.gaveUp ==> TimesNamed(env.tries, id) >= MAX_PASSES
      ensures err == NoError ==>
                || GivenUpLate(env.tries, rs.gaveUp)
                || (Saw(env.world.cancelled, old(env.checks), env.checks) && !StaysCancelled(env.world))
      ensures Caused(err, old(env.Asked()))
      ensures GoodWorld(env.world, store.dim) && old(cb.state) == Closed ==>
                && err == NoError && rs.skipped == 0 && rs.ledger.rejected == {}
                && Unembedded(rs.db0) <= store.vectors.Keys
      // the batch size was never halved more often than the logarithm of the full one before being restored
      ensures Pow2(rs.maxShrinks) <= batchSz
      ensures IsOrder(rs.order, Unembedded(rs.db0)) && RightlySized(rs) && LaterSized(rs, err)
    {
      var total := source.CountChunks(false);
      ghost var order := AllInOrder(Unembedded(source.Value()));
      rs := new RunState(batchSz, total, source.Value(), store.vectors, Stands(), env.Asked(), order);
      NothingYetSized(Plan(batchSz, order, rs.vecs0.Keys));
      OpenReplay(env.world, Stands(), [], Stands());
      assert 1 * Pow2(0) == 1;
      env.tries := [];
      StartExplained(store.vectors);
      Start(source.Value(), store.vectors);
      NoPasses([], []);
      SettledIsSound(Now(source, rs));
      var fails := env.IoFails();
      if fails {
        err := StoreError;
      } else if total == 0 {
        NothingToDo(Now(source, rs));
        err := NoError;
      } else {
        ghost var size;
        err, size := BothPhases(source, rs);
        EachTakesStretch(Plan(batchSz, rs.order, rs.vecs0.Keys), rs.phaseOne, size);
      }
      OpenAccount(Now(source, rs));
      OpenFates(Fated(rs));
      OpenReplay(env.world, rs.origin, env.tries, Stands());
      StatusesStayRight(Now(source, rs));
      GoodRun(source, rs, err, old(env.Asked()));
    }

    /** In a good world no error has a cause and no chunk a reason to be dropped. */
    lemma GoodRun(source: Store, rs: RunState, err: RunError, from: Moment)
      requires LogOk(rs) && Explained(Fated(rs)) && Caused(err, from)
      requires err == NoError ==> RunComplete(Now(source, rs))
      requires err == NoError ==> forall id :: id in rs.gaveUp ==> TimesNamed(env.tries, id) >= MAX_PASSES
      ensures GoodWorld(env.world, store.dim) && rs.origin.breaker.state == Closed ==>
                && err == NoError && rs.ledger.skipped == {} && rs.ledger.rejected == {}
                && Unembedded(rs.db0) <= store.vectors.Keys
    {
      if GoodWorld(env.world, store.dim) && rs.origin.breaker.state == Closed {
        OpenReplay(env.world, rs.origin, env.tries, Stands());
        GoodLog(env.world, store.dim, rs.origin, env.tries);
        GoodRunDropsNothing(env.world, store.dim, rs.origin, Fated(rs));
        StoredIfNotDropped(Now(source, rs));
      }
    }

    /**
     After a permanent error on a half-open probe the breaker refuses to the end, so a chunk first requested
     after that is given up, whatever the embedder would have answered.
     */
    lemma WedgedRunGivesUp(source: Store, rs: RunState, i: nat, id: int)
      requires LogOk(rs) && Explained(Fated(rs)) && RunComplete(Now(source, rs))
      requires i < |env.tries| && env.tries[i].Call? && env.tries[i].outcome.PermanentFailure?
      requires StandingAt(env.world, rs.origin, env.tries, i).breaker.state != Closed
      requires id in Unembedded(rs.db0) - rs.vecs0.Keys && forall k :: 0 <= k <= i ==> id !in env.tries[k].ids
      ensures id in rs.gaveUp
    {
      OpenReplay(env.world, rs.origin, env.tries, Stands());
      WedgedGetsNoAnswer(env.world, rs.origin, Fated(rs), i, id);
      assert id in Unembedded(rs.db0) - store.vectors.Keys;
      assert id in rs.ledger.skipped + rs.ledger.rejected;
    }

    /**
     Every request of the first phase took as much of its page as the batch size before it allowed, less the
     chunks with a vector.
     */
    ghost predicate RightlySized(rs: RunState)
      reads rs
    {
      forall k :: 0 <= k < |rs.phaseOne| ==>
        TakesStretch(Plan(batchSz, rs.order, rs.vecs0.Keys), SizeBefore(batchSz, rs.phaseOne, k), rs.phaseOne[k].ids)
    }

    /** Every later one was for one chunk, in passes if the run went to its end. */
    ghost predicate LaterSized(rs: RunState, err: RunError)
      reads env, rs
    {
      && SinglesSince(rs.phaseOne, env.tries)
      && (err == NoError ==> PassesTaken(rs.phaseOne, env.tries, rs.held, MAX_PASSES, rs.deferred))
    }

    method BothPhases(source: Store, rs: RunState) returns (err: RunError, ghost size: nat)
      requires Between(source, rs) && rs.ledger == EMPTY && QuickTried(rs) && PagedSo(rs)
      modifies store`vectors, cb, env, source, rs
      ensures Running(source, rs) && Since(old(env.Asked())) && Caused(err, old(env.Asked()))
      ensures err == NoError ==> RunComplete(Now(source, rs))
      ensures Batches(Plan(batchSz, rs.order, rs.vecs0.Keys), rs.phaseOne, size) && LaterSized(rs, err)
      ensures err == NoError ==>
                || GivenUpLate(env.tries, rs.gaveUp)
                || (Saw(env.world.cancelled, rs.start.checks, env.checks) && !StaysCancelled(env.world))
      ensures err == NoError ==> forall id :: id in rs.gaveUp ==> TimesNamed(env.tries, id) >= MAX_PASSES
    {
      err := FirstPhase(source, rs);
      rs.phaseOne, rs.held := env.tries, rs.deferred;
      size := rs.activeBatch;
      if err != NoError {
        return;
      }
      err := SecondPhase(source, rs);
    }

    method SecondPhase(source: Store, rs: RunState) returns (err: RunError)
      requires Between(source, rs) && QuickTried(rs) && Elements(rs.ledger.marked) == Unembedded(rs.db0)
      requires env.checks > rs.start.checks && !env.world.cancelled(env.checks - 1)
      modifies store`vectors, cb, env, rs`skipped, rs`ledger, rs`deferred, rs`gaveUp
      ensures Running(source, rs) && Since(old(env.Asked())) && Caused(err, old(env.Asked()))
      ensures err == NoError ==> RunComplete(Now(source, rs))
      ensures SinglesSince(old(env.tries), env.tries)
      ensures err == NoError ==>
                && PassesTaken(old(env.tries), env.tries, old(rs.deferred), MAX_PASSES, rs.deferred)
                && (forall id :: id in rs.gaveUp ==> TimesNamed(env.tries, id) >= MAX_PASSES)
      ensures err == NoError ==>
                || GivenUpLate(env.tries, rs.gaveUp)
                || (Saw(env.world.cancelled, rs.start.checks, env.checks) && !StaysCancelled(env.world))
    {
      ghost var first, held := env.tries, rs.deferred;
      err := RetryDeferred(source, rs);
      if err == NoError {
        ghost var a := Now(source, rs);
        Finish(a.(deferred := []), a.deferred);
        assert a.(deferred := []).(deferred := a.deferred) == a;
        GivenUpWasTried(first, env.tries, held, rs.deferred);
      }
    }

    /** First phase: pages by cursor until none is left. */
    method FirstPhase(source: Store, rs: RunState) returns (err: RunError)
      requires Between(source, rs) && rs.ledger == EMPTY && QuickTried(rs) && PagedSo(rs)
      modifies store`vectors, cb, env, source, rs
      ensures Running(source, rs) && Since(old(env.Asked())) && Caused(err, old(env.Asked())) && QuickTried(rs)
      ensures Sized(rs)
      ensures err == NoError ==> Between(source, rs) && Elements(rs.ledger.marked) == Unembedded(rs.db0)
      ensures err == NoError ==> env.checks > rs.start.checks && !env.world.cancelled(env.checks - 1)
    {
      var lastId := 0;
      CursorStart(Now(source, rs));
      SettledIsSound(Now(source, rs));
      MarkedAtMostAll(Now(source, rs));
      while true
        invariant Between(source, rs) && Running(source, rs)
        invariant AtCursor(Now(source, rs), lastId)
        invariant |rs.ledger.marked| <= |Unembedded(rs.db0)|
        invariant Since(old(env.Asked())) && QuickTried(rs) && PagedSo(rs)
        decreases |Unembedded(rs.db0)| - |rs.ledger.marked|
      {
        var done;
        err, done, lastId := NextPage(source, rs, lastId);
        if err != NoError || done {
          return;
        }
      }
    }

    /** So far whole pages have been embedded, in batches of the right sizes. */
    ghost predicate PagedSo(rs: RunState)
      reads env, rs
    {
      && Sized(rs) && IsOrder(rs.order, Unembedded(rs.db0))
      && (|rs.ledger.marked| % PAGE_SIZE == 0 || |rs.ledger.marked| == |rs.order|)
    }

    method MayRead() returns (err: RunError)
      modifies env`checks, env`ios
      ensures env.checks == old(env.checks) + 1 && old(env.ios) <= env.ios && Caused(err, old(env.Asked()))
      ensures err == NoError ==> !env.world.cancelled(env.checks - 1)
    {
      var cancelled := env.Cancelled();
      if cancelled {
        return ContextDone;
      }
      var fails := env.IoFails();
      return if fails then StoreError else NoError;
    }

    /** Reads a page and embeds it; done when there is none. */
    method NextPage(source: Store, rs: RunState, last: int) returns (err: RunError, done: bool, next: int)
      requires Between(source, rs) && AtCursor(Now(source, rs), last) && QuickTried(rs) && PagedSo(rs)
      modifies store`vectors, cb, env, source, rs
      ensures Running(source, rs) && Since(old(env.Asked())) && Caused(err, old(env.Asked())) && QuickTried(rs)
      ensures Sized(rs) && (err == NoError ==> PagedSo(rs))
      ensures err == NoError ==> Between(source, rs) && |rs.ledger.marked| <= |Unembedded(rs.db0)|
      ensures err == NoError && done ==>
                && Elements(rs.ledger.marked) == Unembedded(rs.db0)
                && env.checks > rs.start.checks && !env.world.cancelled(env.checks - 1)
      ensures err == NoError && !done ==>
                AtCursor(Now(source, rs), next) && |rs.ledger.marked| > |old(rs.ledger.marked)|
    {
      err, done, next := NoError, true, last;
      SettledIsSound(Now(source, rs));
      MarkedAtMostAll(Now(source, rs));
      err := MayRead();
      if err != NoError {
        return;
      }
      var page := source.GetEmbedPage(last, PAGE_SIZE);
      if |page| == 0 {
        NothingLeft(Now(source, rs), last, PAGE_SIZE);
        return;
      }
      done := false;
      err := EmbedNext(source, rs, last, page);
      next := page[|page| - 1];
    }

    method EmbedNext(source: Store, rs: RunState, last: int, page: seq<int>) returns (err: RunError)
      requires Between(source, rs) && AtCursor(Now(source, rs), last) && QuickTried(rs) && PagedSo(rs)
      requires page == Page(Unembedded(source.Value()), last, PAGE_SIZE) && page != []
      modifies store`vectors, cb, env, source, rs
      ensures Running(source, rs) && Since(old(env.Asked())) && Caused(err, old(env.Asked())) && QuickTried(rs)
      ensures Sized(rs)
      ensures err == NoError ==>
                && Between(source, rs) && PagedSo(rs) && AtCursor(Now(source, rs), page[|page| - 1])
                && |rs.ledger.marked| == |old(rs.ledger.marked)| + |page| <= |Unembedded(rs.db0)|
    {
      PageFollows(Now(source, rs), last, page, PAGE_SIZE, rs.order);
      NextPageBegins(|rs.ledger.marked|, |page|, |rs.order|);
      err := EmbedPage(source, rs, last, page);
      if err == NoError {
        SettledIsSound(Now(source, rs));
        MarkedAtMostAll(Now(source, rs));
      }
    }
  }

  /** Since `first` every request was for one chunk. */
  ghost predicate SinglesSince(first: seq<Try>, tries: seq<Try>) {
    first <= tries && forall k :: |first| <= k < |tries| ==> |tries[k].ids| == 1
  }

  /** One request for this chunk alone, which failed if so. */
  ghost predicate OneTry(before: seq<Try>, after: seq<Try>, id: int, failed: bool) {
    && after != [] && after == before + [Last(after)]
    && Last(after).ids == [id] && (failed <==> IsFailure(Last(after)))
  }

  /** Since `first` these jobs were requested once each, and `left` are those that failed. */
  ghost predicate PassTaken(first: seq<Try>, tries: seq<Try>, jobs: seq<int>, left: seq<int>) {
    && first <= tries && OnePass(jobs, tries[|first|..])
    && left == FailedOf(jobs, tries[|first|..])
  }

  lemma PassStart(first: seq<Try>)
    ensures PassTaken(first, first, [], [])
  {
    assert first[|first|..] == [];
  }

  lemma PassGoesOn(first: seq<Try>, before: seq<Try>, after: seq<Try>, jobs: seq<int>, k: nat, left: seq<int>,
                   failed: bool)
    requires k < |jobs| && PassTaken(first, before, jobs[..k], left)
    requires OneTry(before, after, jobs[k], failed)
    ensures PassTaken(first, after, jobs[..k + 1], if failed then left + [jobs[k]] else left)
  {
    var log := before[|first|..];
    assert after[|first|..] == log + [Last(after)];
    assert (log + [Last(after)])[..k] == log && jobs[..k + 1][..k] == jobs[..k];
    assert left + [] == left;
  }

  /** Since `first` there were `n` passes over what was left of the jobs each time. */
  ghost predicate PassesTaken(first: seq<Try>, tries: seq<Try>, jobs: seq<int>, n: nat, left: seq<int>) {
    PassesFolded(first, tries, jobs, n, left, 3 + |jobs|)
  }

  /** Folded as the accounts are. */
  ghost predicate PassesFolded(first: seq<Try>, tries: seq<Try>, jobs: seq<int>, n: nat, left: seq<int>, lock: nat) {
    if lock == 0 then first <= tries && Passes(jobs, tries[|first|..], n, left)
    else PassesFolded(first, tries, jobs, n, left, lock - 1)
  }

  lemma {:induction false} OpenPasses(first: seq<Try>, tries: seq<Try>, jobs: seq<int>, n: nat, left: seq<int>,
                                      lock: nat)
    ensures PassesFolded(first, tries, jobs, n, left, lock) <==>
            first <= tries && Passes(jobs, tries[|first|..], n, left)
  {
    if lock > 0 {
      OpenPasses(first, tries, jobs, n, left, lock - 1);
    }
  }

  lemma NoPasses(first: seq<Try>, jobs: seq<int>)
    ensures PassesTaken(first, first, jobs, 0, jobs)
    ensures jobs == [] ==> PassesTaken(first, first, jobs, MAX_PASSES, jobs)
  {
    OpenPasses(first, first, jobs, 0, jobs, 3 + |jobs|);
    OpenPasses(first, first, jobs, MAX_PASSES, jobs, 3 + |jobs|);
    assert first[|first|..] == [];
    if jobs == [] {
      EmptyPasses([], [], 0, MAX_PASSES);
    }
  }

  lemma NoMorePasses(first: seq<Try>, tries: seq<Try>, jobs: seq<int>, n: nat, left: seq<int>)
    requires n <= MAX_PASSES && PassesTaken(first, tries, jobs, n, left) && (n < MAX_PASSES ==> left == [])
    ensures PassesTaken(first, tries, jobs, MAX_PASSES, left)
  {
    OpenPasses(first, tries, jobs, n, left, 3 + |jobs|);
    OpenPasses(first, tries, jobs, MAX_PASSES, left, 3 + |jobs|);
    if n < MAX_PASSES {
      EmptyPasses(jobs, tries[|first|..], n, MAX_PASSES);
    }
  }

  lemma PassesGoOn(first: seq<Try>, before: seq<Try>, after: seq<Try>, jobs: seq<int>, mid: seq<int>,
                   left: seq<int>, n: nat)
    requires PassesTaken(first, before, jobs, n, mid) && PassTaken(before, after, mid, left)
    ensures PassesTaken(first, after, jobs, n + 1, left)
  {
    OpenPasses(first, before, jobs, n, mid, 3 + |jobs|);
    OpenPasses(first, after, jobs, n + 1, left, 3 + |jobs|);
    PassesThenOne(jobs, before[|first|..], n, mid, after[|before|..]);
    assert after[|first|..] == before[|first|..] + after[|before|..];
  }

  lemma GivenUpWasTried(first: seq<Try>, tries: seq<Try>, held: seq<int>, left: seq<int>)
    requires PassesTaken(first, tries, held, MAX_PASSES, left)
    ensures forall id :: id in Elements(left) ==> TimesNamed(tries, id) >= MAX_PASSES
    ensures NamedOften(first, held) ==> GivenUpLate(tries, Elements(left))
  {
    OpenPasses(first, tries, held, MAX_PASSES, left, 3 + |held|);
    forall id | id in Elements(left)
      ensures TimesNamed(tries, id) >= MAX_PASSES
      ensures NamedOften(first, held) ==> TimesNamed(tries, id) >= QUICK_RETRIES + MAX_PASSES
    {
      LeftWasTried(held, tries[|first|..], MAX_PASSES, left, id);
      NamedConcat(first, tries[|first|..], id);
      assert first + tries[|first|..] == tries;
    }
  }

  /** These chunks have had all quick retries and all passes. */
  ghost predicate GivenUpLate(tries: seq<Try>, ids: set<int>) {
    forall id :: id in ids ==> TimesNamed(tries, id) >= QUICK_RETRIES + MAX_PASSES
  }

  lemma StoredIfNotDropped(a: Account)
    requires RunComplete(a) && a.ledger.skipped == {} && a.ledger.rejected == {}
    ensures Unembedded(a.db0) <= a.vecs.Keys
  {
    forall id | id in Unembedded(a.db0) ensures id in a.vecs.Keys {
      assert id !in a.ledger.skipped + a.ledger.rejected;
    }
  }

  ghost predicate NamedOften(tries: seq<Try>, ids: seq<int>) {
    forall id :: id in ids ==> TimesNamed(tries, id) >= QUICK_RETRIES
  }

  /** More requests keep the count, and all the quick retries bring further chunks up to it. */
  lemma StillNamedOften(first: seq<Try>, tries: seq<Try>, ids: seq<int>, need: seq<int>)
    requires first <= tries && NamedOften(first, ids)
    ensures NamedOften(tries, ids)
    ensures OnlyFailed(first, tries, need) && |tries| == |first| + QUICK_RETRIES ==> NamedOften(tries, ids + need)
  {
    var more := tries[|first|..];
    forall id ensures TimesNamed(tries, id) == TimesNamed(first, id) + TimesNamed(more, id) {
      NamedConcat(first, more, id);
      assert first + more == tries;
    }
    forall id | id in need && OnlyFailed(first, tries, need) && |tries| == |first| + QUICK_RETRIES
      ensures TimesNamed(tries, id) >= QUICK_RETRIES
    {
      forall k | 0 <= k < |more| ensures id in more[k].ids {
        assert more[k] == tries[|first| + k];
      }
      NamedAlways(more, id);
    }
  }

  function BookedFates(f: Fates, bk: Booking): Fates {
    f.(skipped := f.skipped + bk.skip, rejected := f.rejected + bk.reject)
  }

  /** What storing the clean vectors of a batch does to the books and the explanations. */
  lemma StoreSteps(a: Account, f: Fates, batch: seq<int>, need: seq<int>, needIds: seq<Int64>, vecs: seq<Vector>)
    requires IsSettled(a) && IsNext(a, batch) && IsNeed(a, batch, need) && f.vecs == a.vecs
    requires needIds == need && Gave(f.tries, need, vecs) && |CleanIds(needIds, vecs)| == |CleanVecs(vecs)|
    requires IsExplained(f) && f.gaveUp == {} && IsAccounted(f.(tries := Init(f.tries)))
    ensures IsExplained(Stored(f, needIds, vecs)) && IsAccounted(Stored(f, needIds, vecs))
    ensures var clean := Elements(CleanIds(needIds, vecs));
      var after := Inserted(a.vecs, CleanIds(needIds, vecs), CleanVecs(vecs));
      var b := BookedAccount(a, Booking({}, Elements(need) - clean, {}), after, a.deferred);
      && IsSound(b) && IsSettled(MarkedAccount(b, batch)) && |b.ledger.skipped| == |a.ledger.skipped|
  {
    var clean := CleanIds(needIds, vecs);
    var after := Inserted(a.vecs, clean, CleanVecs(vecs));
    NeededIdsFit(a, batch, need);
    CleanAdded(a, need, needIds, vecs, clean, CleanVecs(vecs));
    StoreStep(a, batch, need, Elements(clean), after);
    StoreExplained(f, needIds, vecs);
    StoreAccounted(f, needIds, vecs);
  }

  lemma WaitingIsUnbooked(a: Account)
    requires IsSettled(a)
    ensures Elements(a.deferred) == a.ledger.waiting
    ensures forall id :: id in a.ledger.waiting ==>
              id !in a.vecs && id !in a.ledger.rejected && id !in a.ledger.skipped
  {
    OpenAccount(a);
  }

  lemma PageSlice(marked: seq<int>, page: seq<int>, order: seq<int>)
    requires FollowsInOrder(marked, page, PAGE_SIZE, order)
    ensures page == order[|marked|..|marked| + |page|]
  {
    var m := |marked|;
    assert page == (marked + page)[m..] == order[..m + |page|][m..];
  }

  lemma NothingYetSized(p: Plan)
    ensures Batches(p, [], p.full)
  {
    OpenBatches(p, [], p.full);
  }

  lemma Advance(pre: seq<int>, jobs: seq<int>, k: nat)
    requires k < |jobs|
    ensures pre + jobs[k..] == pre + [jobs[k]] + jobs[k + 1..]
  {}

  lemma MarkedStretch(marked: seq<int>, page: seq<int>, i: nat, j: nat)
    requires i <= j <= |page|
    ensures (marked + page[..i]) + page[i..j] == marked + page[..j]
  {}

  lemma NoneWaitingUnless(a: Account)
    requires IsSettled(a)
    ensures a.deferred == [] ==> a.ledger.waiting == {}
  {
    if a.deferred == [] {
      NoneWaiting(a);
    }
  }

  lemma NothingToDo(a: Account)
    requires IsSettled(a) && a.ledger == EMPTY && a.deferred == [] && |Unembedded(a.db0)| == 0
    ensures RunComplete(a)
  {
    assert Elements([]) == {};
    Finish(a, a.deferred);
  }

  lemma CleanSingle(id: Int64, v: Vector)
    ensures CleanIds([id], [v]) == (if Healthy(v) then [id] else [])
    ensures CleanVecs([v]) == (if Healthy(v) then [v] else [])
  {
    assert [id][..0] == [] && [v][..0] == [];
  }

  lemma NoneWaiting(a: Account)
    requires IsSettled(a) && a.deferred == []
    ensures a.ledger.waiting == {}
  {
    OpenAccount(a);
    assert Elements([]) == {};
  }

  lemma NeedMore(batch: seq<int>, i: nat, need: seq<int>)
    requires i < |batch| && forall x :: x in need ==> x in batch[..i]
    ensures Elements(need + [batch[i]]) == Elements(need) + {batch[i]}
    ensures Ascending(batch) && Ascending(need) ==> Ascending(need + [batch[i]])
  {
    ElementsAppend(need, [batch[i]]);
    assert Elements([batch[i]]) == {batch[i]};
    if Ascending(batch) && Ascending(need) {
      forall x, y | x in need && y in [batch[i]] ensures x < y {
        var k :| 0 <= k < i && batch[k] == x;
      }
      AscendingConcat(need, [batch[i]]);
    }
  }

  lemma BatchAscends(marked: seq<int>, batch: seq<int>)
    requires Ascending(marked + batch)
    ensures Ascending(batch)
  {
    forall i, j | 0 <= i < j < |batch| ensures batch[i] < batch[j] {
      assert (marked + batch)[|marked| + i] < (marked + batch)[|marked| + j];
    }
  }

  /** Upserting the clean vectors touches none that was there. */
  lemma CleanAdded(a: Account, need: seq<int>, needIds: seq<Int64>, vecs: seq<Vector>,
                   cleanIds: seq<Int64>, cleanVecs: seq<Vector>)
    requires needIds == need && |needIds| == |vecs|
    requires forall id :: id in need ==> id !in a.vecs
    requires cleanIds == CleanIds(needIds, vecs) && |cleanIds| == |cleanVecs|
    ensures Elements(cleanIds) <= Elements(need)
    ensures var after := Inserted(a.vecs, cleanIds, cleanVecs);
      Keeps(a.vecs, after) && after.Keys == a.vecs.Keys + Elements(cleanIds)
  {
    CleanIdsKept(needIds, vecs);
    InsertedKeys(a.vecs, cleanIds, cleanVecs);
    KeysAfterInsert(a.vecs, cleanIds, cleanVecs);
  }

  lemma KeysAfterInsert(v: map<Int64, Vector>, ids: seq<Int64>, vecs: seq<Vector>)
    requires |ids| == |vecs|
    ensures Inserted(v, ids, vecs).Keys == v.Keys + Elements(ids)
  {
    InsertedKeys(v, ids, vecs);
  }
}
