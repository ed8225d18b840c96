/**
 The books of one embedding run (internal/vector/embed_worker.go, RunFromDB): which chunk went where.
 Everything here is about values; EmbedWorker.dfy ties it to the running code.
 */
module EmbedLedgers {
  import opened EmbedBatches
  import opened EmbedStatus
  import opened Paging
  import opened VectorFile

  /**
   Where the chunks of a run are: `marked` in the order they were marked, the ids skipped for good,
   those whose vector the sanitizer dropped in the first phase, and those waiting for a retry.
   */
  datatype Ledger = Ledger(marked: seq<int>, skipped: set<int>, rejected: set<int>, waiting: set<int>)

  const EMPTY := Ledger([], {}, {}, {})

  function Unembedded(db: Db): set<int> {
    WithFlag(db.chunks, false)
  }

  /**
   At any moment of a run that began with database `db0` and vector ids `ids0`: marks went up in id order
   and only to chunks that needed them, no vector was lost, no vector but theirs was added, nothing is
   booked twice, and every marked chunk is stored, skipped, rejected or waiting.
   */
  ghost predicate Sound(db0: Db, ids0: set<int>, db: Db, ids: set<int>, l: Ledger) {
    && Ascending(l.marked) && Elements(l.marked) <= Unembedded(db0)
    && db == Marked(db0, Elements(l.marked))
    && ids0 <= ids && ids - ids0 <= Unembedded(db0)
    && l.skipped !! l.rejected && l.skipped !! l.waiting && l.rejected !! l.waiting
    && l.skipped + l.rejected + l.waiting <= Unembedded(db0) - ids
    && Elements(l.marked) <= ids + l.skipped + l.rejected + l.waiting
  }

  /** Between batches, what is booked or newly stored is also marked. */
  ghost predicate Settled(ids0: set<int>, ids: set<int>, l: Ledger) {
    && l.skipped + l.rejected + l.waiting <= Elements(l.marked)
    && ids - ids0 <= Elements(l.marked)
  }

  lemma StartSound(db0: Db, ids0: set<int>)
    ensures Sound(db0, ids0, db0, ids0, EMPTY) && Settled(ids0, ids0, EMPTY)
  {
    NothingAffected(db0, {});
  }

  lemma UnembeddedAfter(db0: Db, marked: set<int>)
    requires marked <= Unembedded(db0)
    ensures Unembedded(Marked(db0, marked)) == Unembedded(db0) - marked
  {}

  /** Statuses that were right when the run began are right whenever it ends. */
  lemma StatusesStayRight(a: Account)
    requires SoundAccount(a)
    ensures Consistent(a.db0) ==> Consistent(a.db)
  {
    if Consistent(a.db0) {
      MarkRecomputes(a.db0, Elements(a.ledger.marked));
    }
  }

  lemma AscendingConcat(a: seq<int>, b: seq<int>)
    requires Ascending(a) && Ascending(b)
    requires forall x, y :: x in a && y in b ==> x < y
    ensures Ascending(a + b)
  {
    forall i, j | 0 <= i < j < |a + b| ensures (a + b)[i] < (a + b)[j] {
      if i < |a| <= j {
        assert a[i] in a && b[j - |a|] in b;
      }
    }
  }

  /** A batch that may be marked next. */
  ghost predicate NextBatch(db0: Db, l: Ledger, batch: seq<int>) {
    && Ascending(l.marked + batch)
    && Elements(batch) <= Unembedded(db0) - Elements(l.marked)
  }

  /** New bookings of one batch: chunks to skip, chunks with a rejected vector, chunks to retry. */
  datatype Booking = Booking(skip: set<int>, reject: set<int>, retry: set<int>)

  /** The ids of the batch that have no vector even now are booked, each once. */
  ghost predicate Books(bk: Booking, ids: set<int>, after: set<int>, batch: set<int>) {
    && ids <= after && after - ids <= batch
    && bk.skip + bk.reject + bk.retry == batch - after
    && bk.skip !! bk.reject && bk.skip !! bk.retry && bk.reject !! bk.retry
  }

  function WithBooking(l: Ledger, bk: Booking): Ledger {
    Ledger(l.marked, l.skipped + bk.skip, l.rejected + bk.reject, l.waiting + bk.retry)
  }

  /** Vectors are upserted and bookings made, but the batch is not marked yet. */
  lemma BookingKeepsSound(db0: Db, ids0: set<int>, db: Db, ids: set<int>, after: set<int>, batch: seq<int>,
                          l: Ledger, bk: Booking)
    requires Sound(db0, ids0, db, ids, l) && Settled(ids0, ids, l) && NextBatch(db0, l, batch)
    requires Books(bk, ids, after, Elements(batch))
    ensures Sound(db0, ids0, db, after, WithBooking(l, bk))
    ensures |l.skipped + bk.skip| == |l.skipped| + |bk.skip|
    ensures |l.waiting + bk.retry| == |l.waiting| + |bk.retry|
  {
    var need, incoming := Unembedded(db0), Elements(batch);
    assert forall c :: c in incoming ==> c in need && c !in Elements(l.marked);
    assert forall c :: c in l.skipped + l.rejected + l.waiting ==> c in Elements(l.marked);
  }

  /** Adding the batch to the marks settles it, once its bookings are made. */
  lemma CloseBatch(db0: Db, ids0: set<int>, db: Db, after: set<int>, batch: seq<int>, m: Ledger)
    requires Sound(db0, ids0, db, after, m) && NextBatch(db0, m, batch)
    requires Elements(batch) <= after + m.skipped + m.rejected + m.waiting
    requires m.skipped + m.rejected + m.waiting + (after - ids0) <= Elements(m.marked) + Elements(batch)
    ensures var closed := m.(marked := m.marked + batch);
      Sound(db0, ids0, Marked(db, Elements(batch)), after, closed) && Settled(ids0, after, closed)
  {
    MarkTwice(db0, Elements(m.marked), Elements(batch));
    ElementsAppend(m.marked, batch);
  }

  lemma BookingCovers(ids0: set<int>, ids: set<int>, after: set<int>, batch: set<int>, l: Ledger, bk: Booking)
    requires Settled(ids0, ids, l) && Books(bk, ids, after, batch)
    ensures var m := WithBooking(l, bk);
      && batch <= after + m.skipped + m.rejected + m.waiting
      && m.skipped + m.rejected + m.waiting + (after - ids0) <= Elements(m.marked) + batch
  {
    var m, all := WithBooking(l, bk), Elements(l.marked) + batch;
    forall c | c in batch ensures c in after + m.skipped + m.rejected + m.waiting {
      assert c in after || c in bk.skip + bk.reject + bk.retry;
    }
    forall c | c in bk.skip + bk.reject + bk.retry ensures c in batch {}
    forall c | c in l.skipped + l.rejected + l.waiting ensures c in all {}
    forall c | c in after - ids0 ensures c in all {
      assert c in ids - ids0 || c in after - ids;
    }
  }

  lemma MarkingSettles(db0: Db, ids0: set<int>, db: Db, ids: set<int>, after: set<int>, batch: seq<int>,
                       l: Ledger, bk: Booking)
    requires Sound(db0, ids0, db, ids, l) && Settled(ids0, ids, l) && NextBatch(db0, l, batch)
    requires Books(bk, ids, after, Elements(batch))
    ensures var closed := WithBooking(l, bk).(marked := l.marked + batch);
      Sound(db0, ids0, Marked(db, Elements(batch)), after, closed) && Settled(ids0, after, closed)
  {
    BookingKeepsSound(db0, ids0, db, ids, after, batch, l, bk);
    BookingCovers(ids0, ids, after, Elements(batch), l, bk);
    CloseBatch(db0, ids0, db, after, batch, WithBooking(l, bk));
  }

  /** A retry that settles one waiting chunk: its vector is stored, or it is skipped. */
  lemma RetrySettlesOne(db0: Db, ids0: set<int>, db: Db, ids: set<int>, l: Ledger, id: int)
    requires Sound(db0, ids0, db, ids, l) && Settled(ids0, ids, l) && id in l.waiting
    ensures var stored := l.(waiting := l.waiting - {id});
      Sound(db0, ids0, db, ids + {id}, stored) && Settled(ids0, ids + {id}, stored)
    ensures var skipped := l.(waiting := l.waiting - {id}, skipped := l.skipped + {id});
      Sound(db0, ids0, db, ids, skipped) && Settled(ids0, ids, skipped) && |skipped.skipped| == |l.skipped| + 1
  {}

  lemma RetryGivesUp(db0: Db, ids0: set<int>, db: Db, ids: set<int>, l: Ledger)
    requires Sound(db0, ids0, db, ids, l) && Settled(ids0, ids, l)
    ensures var m := l.(waiting := {}, skipped := l.skipped + l.waiting);
      Sound(db0, ids0, db, ids, m) && Settled(ids0, ids, m) && |m.skipped| == |l.skipped| + |l.waiting|
  {}

  lemma DisjointSizes(a: set<int>, b: set<int>, c: set<int>)
    requires a !! b && a !! c && b !! c
    ensures |a + b + c| == |a| + |b| + |c|
  {}

  lemma SplitSizes(need: set<int>, ids: set<int>, skipped: set<int>, rejected: set<int>)
    requires skipped !! rejected && skipped + rejected == need - ids
    ensures |need| == |need * ids| + |skipped| + |rejected|
  {
    assert need == need * ids + skipped + rejected;
    DisjointSizes(need * ids, skipped, rejected);
  }

  lemma BookedIsMissing(db0: Db, ids0: set<int>, db: Db, ids: set<int>, l: Ledger)
    requires Sound(db0, ids0, db, ids, l) && Settled(ids0, ids, l)
    requires Elements(l.marked) == Unembedded(db0) && l.waiting == {}
    ensures Unembedded(db0) - ids == l.skipped + l.rejected
  {
    forall c ensures c in Unembedded(db0) - ids <==> c in l.skipped + l.rejected {
      assert c in Unembedded(db0) ==> c in Elements(l.marked);
    }
  }

  /** When all is marked and nothing waits, the chunks split exactly into stored, skipped and rejected. */
  lemma {:induction false} Conservation(db0: Db, ids0: set<int>, db: Db, ids: set<int>, l: Ledger)
    requires Sound(db0, ids0, db, ids, l) && Settled(ids0, ids, l)
    requires Elements(l.marked) == Unembedded(db0) && l.waiting == {}
    ensures |Unembedded(db0)| == |Unembedded(db0) * ids| + |l.skipped| + |l.rejected|
    ensures Unembedded(db0) - ids == l.skipped + l.rejected
    ensures Unembedded(db) == {}
    ensures WithFlag(db.chunks, true) == db0.chunks.Keys
  {
    BookedIsMissing(db0, ids0, db, ids, l);
    SplitSizes(Unembedded(db0), ids, l.skipped, l.rejected);
    AllFlagged(db0);
  }

  lemma AllFlagged(db0: Db)
    ensures Unembedded(Marked(db0, Unembedded(db0))) == {}
    ensures WithFlag(Marked(db0, Unembedded(db0)).chunks, true) == db0.chunks.Keys
  {
    forall c | c in db0.chunks ensures db0.chunks[c].embedded || c in Unembedded(db0) {}
  }

  // ---- Accounts ----

  /**
   The state of a run as one value: the database and vectors it began with, those it has now, the ledger
   and the chunks held for a retry.
   */
  datatype Account = Account(
    db0: Db,
    vecs0: map<Int64, Vector>,
    db: Db,
    vecs: map<Int64, Vector>,
    ledger: Ledger,
    deferred: seq<int>
  )

  /** SQLite row ids are positive and have 64 bits. */
  ghost predicate IdsFit(db: Db) {
    forall c :: c in db.chunks ==> 0 < c < 0x8000_0000_0000_0000
  }

  ghost predicate Keeps(vecs0: map<Int64, Vector>, vecs: map<Int64, Vector>) {
    forall id :: id in vecs0 ==> id in vecs && vecs[id] == vecs0[id]
  }

  ghost predicate SoundAccount(a: Account) {
    && IdsFit(a.db0) && Keeps(a.vecs0, a.vecs)
    && Sound(a.db0, a.vecs0.Keys, a.db, a.vecs.Keys, a.ledger)
  }

  ghost predicate SettledAccount(a: Account) {
    && SoundAccount(a)
    && Settled(a.vecs0.Keys, a.vecs.Keys, a.ledger)
    && Elements(a.deferred) == a.ledger.waiting && |a.deferred| == |a.ledger.waiting|
  }

  /** `need` lists the ids of the batch that have no vector. */
  ghost predicate NeedOf(a: Account, batch: seq<int>, need: seq<int>) {
    && NextBatch(a.db0, a.ledger, batch)
    && Elements(need) == Elements(batch) - a.vecs.Keys && Ascending(need)
  }

  // The running code carries these predicates folded: the verifier unfolds a recursive definition once or
  // twice, which does not reach the lock's end, and only the lemmas below open it.

  ghost predicate SoundFolded(a: Account, lock: nat) {
    if lock == 0 then SoundAccount(a) else SoundFolded(a, lock - 1)
  }

  ghost predicate SettledFolded(a: Account, lock: nat) {
    if lock == 0 then SettledAccount(a) else SettledFolded(a, lock - 1)
  }

  ghost predicate NextFolded(a: Account, batch: seq<int>, lock: nat) {
    if lock == 0 then NextBatch(a.db0, a.ledger, batch) else NextFolded(a, batch, lock - 1)
  }

  ghost predicate NeedFolded(a: Account, batch: seq<int>, need: seq<int>, lock: nat) {
    if lock == 0 then NeedOf(a, batch, need) else NeedFolded(a, batch, need, lock - 1)
  }

  ghost predicate IsSound(a: Account) {
    SoundFolded(a, 3 + |a.deferred|)
  }

  ghost predicate IsSettled(a: Account) {
    SettledFolded(a, 3 + |a.deferred|)
  }

  ghost predicate IsNext(a: Account, batch: seq<int>) {
    NextFolded(a, batch, 3 + |batch|)
  }

  ghost predicate IsNeed(a: Account, batch: seq<int>, need: seq<int>) {
    NeedFolded(a, batch, need, 3 + |batch|)
  }

  lemma {:induction false} UnfoldSound(a: Account, lock: nat)
    ensures SoundFolded(a, lock) <==> SoundAccount(a)
  {
    if lock > 0 {
      UnfoldSound(a, lock - 1);
    }
  }

  lemma {:induction false} UnfoldSettled(a: Account, lock: nat)
    ensures SettledFolded(a, lock) <==> SettledAccount(a)
  {
    if lock > 0 {
      UnfoldSettled(a, lock - 1);
    }
  }

  lemma {:induction false} UnfoldNext(a: Account, batch: seq<int>, lock: nat)
    ensures NextFolded(a, batch, lock) <==> NextBatch(a.db0, a.ledger, batch)
  {
    if lock > 0 {
      UnfoldNext(a, batch, lock - 1);
    }
  }

  lemma {:induction false} UnfoldNeed(a: Account, batch: seq<int>, need: seq<int>, lock: nat)
    ensures NeedFolded(a, batch, need, lock) <==> NeedOf(a, batch, need)
  {
    if lock > 0 {
      UnfoldNeed(a, batch, need, lock - 1);
    }
  }

  lemma OpenAccount(a: Account)
    ensures IsSound(a) <==> SoundAccount(a)
    ensures IsSettled(a) <==> SettledAccount(a)
  {
    UnfoldSound(a, 3 + |a.deferred|);
    UnfoldSettled(a, 3 + |a.deferred|);
  }

  lemma OpenBatch(a: Account, batch: seq<int>)
    ensures IsNext(a, batch) <==> NextBatch(a.db0, a.ledger, batch)
    ensures forall need :: IsNeed(a, batch, need) <==> NeedOf(a, batch, need)
  {
    UnfoldNext(a, batch, 3 + |batch|);
    forall need ensures IsNeed(a, batch, need) <==> NeedOf(a, batch, need) {
      UnfoldNeed(a, batch, need, 3 + |batch|);
    }
  }

  // ---- Steps of a run ----

  lemma Start(db0: Db, vecs0: map<Int64, Vector>)
    requires IdsFit(db0)
    ensures IsSettled(Account(db0, vecs0, db0, vecs0, EMPTY, []))
  {
    StartSound(db0, vecs0.Keys);
    OpenAccount(Account(db0, vecs0, db0, vecs0, EMPTY, []));
  }

  lemma SettledIsSound(a: Account)
    requires IsSettled(a)
    ensures IsSound(a)
  {
    OpenAccount(a);
  }

  /** The account once its vectors, bookings and deferred list are updated, before the marks. */
  function BookedAccount(a: Account, bk: Booking, vecs: map<Int64, Vector>, deferred: seq<int>): Account {
    a.(vecs := vecs, deferred := deferred, ledger := WithBooking(a.ledger, bk))
  }

  function MarkedAccount(a: Account, batch: seq<int>): Account {
    a.(db := Marked(a.db, Elements(batch)), ledger := a.ledger.(marked := a.ledger.marked + batch))
  }

  lemma KeepsTransitive(a: map<Int64, Vector>, b: map<Int64, Vector>, c: map<Int64, Vector>)
    requires Keeps(a, b) && Keeps(b, c)
    ensures Keeps(a, c)
  {}

  /** `b` is `a` after the bookings of a batch. */
  ghost predicate BooksBatch(a: Account, batch: seq<int>, bk: Booking, b: Account) {
    && b == BookedAccount(a, bk, b.vecs, b.deferred)
    && Keeps(a.vecs, b.vecs) && Books(bk, a.vecs.Keys, b.vecs.Keys, Elements(batch))
    && Elements(b.deferred) == Elements(a.deferred) + bk.retry && |b.deferred| == |a.deferred| + |bk.retry|
  }

  lemma BookStep(a: Account, batch: seq<int>, bk: Booking, b: Account)
    requires IsSettled(a) && IsNext(a, batch) && BooksBatch(a, batch, bk, b)
    ensures IsSound(b) && |b.ledger.skipped| == |a.ledger.skipped| + |bk.skip|
    ensures Elements(b.deferred) == b.ledger.waiting && |b.deferred| == |b.ledger.waiting|
  {
    OpenAccount(a);
    OpenBatch(a, batch);
    KeepsTransitive(a.vecs0, a.vecs, b.vecs);
    BookingKeepsSound(a.db0, a.vecs0.Keys, a.db, a.vecs.Keys, b.vecs.Keys, batch, a.ledger, bk);
    OpenAccount(b);
  }

  /** Booking a batch keeps the account sound, and marking it afterwards settles it. */
  lemma BatchStep(a: Account, batch: seq<int>, bk: Booking, b: Account)
    requires IsSettled(a) && IsNext(a, batch) && BooksBatch(a, batch, bk, b)
    ensures IsSound(b) && IsSettled(MarkedAccount(b, batch))
    ensures |b.ledger.skipped| == |a.ledger.skipped| + |bk.skip|
  {
    BookStep(a, batch, bk, b);
    OpenAccount(a);
    OpenAccount(b);
    OpenBatch(a, batch);
    MarkingSettles(a.db0, a.vecs0.Keys, a.db, a.vecs.Keys, b.vecs.Keys, batch, a.ledger, bk);
    var closed := MarkedAccount(b, batch);
    assert closed.ledger == WithBooking(a.ledger, bk).(marked := a.ledger.marked + batch);
    OpenAccount(closed);
  }

  /** Every chunk of the batch has a vector already. */
  lemma NothingStep(a: Account, batch: seq<int>, need: seq<int>)
    requires IsSettled(a) && IsNext(a, batch) && IsNeed(a, batch, need) && need == []
    ensures IsSettled(MarkedAccount(a, batch))
  {
    SkipStep(a, batch, need);
    assert Elements(need) == {};
    assert BookedAccount(a, Booking(Elements(need), {}, {}), a.vecs, a.deferred) == a;
  }

  lemma SkipStep(a: Account, batch: seq<int>, need: seq<int>)
    requires IsSettled(a) && IsNext(a, batch) && IsNeed(a, batch, need)
    ensures var b := BookedAccount(a, Booking(Elements(need), {}, {}), a.vecs, a.deferred);
      && IsSound(b) && IsSettled(MarkedAccount(b, batch))
      && |b.ledger.skipped| == |a.ledger.skipped| + |need|
  {
    OpenBatch(a, batch);
    AscendingSize(need);
    var bk := Booking(Elements(need), {}, {});
    NeedBooks(a.vecs.Keys, Elements(batch), Elements(need));
    BatchStep(a, batch, bk, BookedAccount(a, bk, a.vecs, a.deferred));
  }

  lemma DeferStep(a: Account, batch: seq<int>, need: seq<int>)
    requires IsSettled(a) && IsNext(a, batch) && IsNeed(a, batch, need)
    ensures var b := BookedAccount(a, Booking({}, {}, Elements(need)), a.vecs, a.deferred + need);
      && IsSound(b) && IsSettled(MarkedAccount(b, batch))
      && |b.ledger.skipped| == |a.ledger.skipped|
  {
    OpenBatch(a, batch);
    AscendingSize(need);
    ElementsAppend(a.deferred, need);
    var bk := Booking({}, {}, Elements(need));
    NeedBooks(a.vecs.Keys, Elements(batch), Elements(need));
    BatchStep(a, batch, bk, BookedAccount(a, bk, a.vecs, a.deferred + need));
  }

  /** Vectors for the ids `clean` among those needed are stored, the others rejected. */
  lemma StoreStep(a: Account, batch: seq<int>, need: seq<int>, clean: set<int>, vecs: map<Int64, Vector>)
    requires IsSettled(a) && IsNext(a, batch) && IsNeed(a, batch, need)
    requires clean <= Elements(need) && Keeps(a.vecs, vecs) && vecs.Keys == a.vecs.Keys + clean
    ensures var b := BookedAccount(a, Booking({}, Elements(need) - clean, {}), vecs, a.deferred);
      && IsSound(b) && IsSettled(MarkedAccount(b, batch))
      && |b.ledger.skipped| == |a.ledger.skipped|
  {
    OpenBatch(a, batch);
    var bk := Booking({}, Elements(need) - clean, {});
    StoreBooks(a.vecs.Keys, vecs.Keys, Elements(batch), Elements(need), clean);
    BatchStep(a, batch, bk, BookedAccount(a, bk, vecs, a.deferred));
  }

  lemma NeedBooks(ids: set<int>, batch: set<int>, need: set<int>)
    requires need == batch - ids
    ensures Books(Booking(need, {}, {}), ids, ids, batch) && Books(Booking({}, {}, need), ids, ids, batch)
  {}

  lemma StoreBooks(ids: set<int>, after: set<int>, batch: set<int>, need: set<int>, clean: set<int>)
    requires need == batch - ids && clean <= need && after == ids + clean
    ensures Books(Booking({}, need - clean, {}), ids, after, batch)
  {}

  /** Needed ids are positive 64-bit row ids without a vector. */
  lemma NeededIdsFit(a: Account, batch: seq<int>, need: seq<int>)
    requires IsSettled(a) && IsNeed(a, batch, need)
    ensures forall id :: id in need ==> 0 < id < 0x8000_0000_0000_0000 && id !in a.vecs
  {
    OpenAccount(a);
    OpenBatch(a, batch);
    forall id | id in need ensures 0 < id < 0x8000_0000_0000_0000 && id !in a.vecs {
      assert id in Elements(need);
    }
  }

  lemma BatchIdsFit(a: Account, batch: seq<int>)
    requires IsSettled(a) && IsNext(a, batch)
    ensures forall i :: 0 <= i < |batch| ==> 0 < batch[i] < 0x8000_0000_0000_0000
  {
    OpenAccount(a);
    OpenBatch(a, batch);
    forall i | 0 <= i < |batch| ensures 0 < batch[i] < 0x8000_0000_0000_0000 {
      assert batch[i] in Elements(batch);
    }
  }

  // ---- Paging through the chunks ----

  /** Marks end at the cursor, and every chunk still to be marked lies above it. */
  ghost predicate AtCursor(a: Account, last: int) {
    && (forall m :: m in a.ledger.marked ==> m <= last)
    && forall c :: c in Unembedded(a.db0) - Elements(a.ledger.marked) ==> c > last
  }

  /** The account has marked the first `i` ids of a page read when it was `a`. */
  ghost predicate PageMarked(a: Account, page: seq<int>, i: nat, b: Account)
    requires i <= |page|
  {
    b.db0 == a.db0 && b.vecs0 == a.vecs0 && b.ledger.marked == a.ledger.marked + page[..i]
  }

  lemma CursorStart(a: Account)
    requires IsSettled(a) && a.ledger == EMPTY
    ensures AtCursor(a, 0)
  {
    OpenAccount(a);
  }

  lemma LeftUnmarked(a: Account)
    requires IsSettled(a)
    ensures Unembedded(a.db) == Unembedded(a.db0) - Elements(a.ledger.marked)
  {
    OpenAccount(a);
    UnembeddedAfter(a.db0, Elements(a.ledger.marked));
  }

  /** A page of a set that lies above the cursor altogether. */
  lemma PageOfAll(ids: set<int>, last: int, page: seq<int>, limit: nat)
    requires Above(ids, last) == ids && limit > 0 && page == Page(ids, last, limit)
    ensures Ascending(page) && Elements(page) <= ids
    ensures page == [] ==> ids == {}
    ensures page != [] ==> forall c :: c in ids - Elements(page) ==> c > page[|page| - 1]
    ensures forall x :: x in page ==> x > last
  {
    PageCovers(ids, last, limit);
    forall x | x in page ensures x > last {
      assert x in Elements(page);
    }
  }

  lemma PageIds(a: Account, last: int, page: seq<int>, limit: nat)
    requires IsSettled(a) && AtCursor(a, last) && limit > 0
    requires page == Page(Unembedded(a.db), last, limit)
    ensures Unembedded(a.db) == Unembedded(a.db0) - Elements(a.ledger.marked)
    ensures Ascending(page) && Elements(page) <= Unembedded(a.db)
    ensures page == [] ==> Unembedded(a.db) == {}
    ensures page != [] ==> forall c :: c in Unembedded(a.db) - Elements(page) ==> c > page[|page| - 1]
    ensures forall x :: x in page ==> x > last
  {
    LeftUnmarked(a);
    assert Above(Unembedded(a.db), last) == Unembedded(a.db);
    PageOfAll(Unembedded(a.db), last, page, limit);
  }

  lemma StretchAscends(marked: seq<int>, page: seq<int>, i: nat, j: nat)
    requires Ascending(marked) && Ascending(page) && i <= j <= |page|
    requires forall x, y :: x in marked && y in page ==> x < y
    ensures Ascending((marked + page[..i]) + page[i..j])
  {
    AscendingConcat(marked, page);
    assert (marked + page[..i]) + page[i..j] == (marked + page)[..|marked| + j];
  }

  lemma StretchUnmarked(marked: seq<int>, page: seq<int>, i: nat, j: nat, x: int)
    requires Ascending(page) && i <= j <= |page| && x in page[i..j]
    requires Elements(page) !! Elements(marked)
    ensures x in Elements(page) && x !in Elements(marked + page[..i])
  {
    var k :| i <= k < j && page[k] == x;
    assert x in page;
    ElementsAppend(marked, page[..i]);
  }

  /** Any stretch of the page that follows what is marked of it may be marked next. */
  lemma PageBatch(a: Account, last: int, page: seq<int>, limit: nat, b: Account, i: nat, j: nat)
    requires IsSettled(a) && AtCursor(a, last) && limit > 0
    requires page == Page(Unembedded(a.db), last, limit)
    requires i <= j <= |page| && PageMarked(a, page, i, b)
    ensures IsNext(b, page[i..j])
  {
    OpenAccount(a);
    PageIds(a, last, page, limit);
    var marked, batch := a.ledger.marked, page[i..j];
    StretchAscends(marked, page, i, j);
    forall x | x in Elements(batch) ensures x in Unembedded(a.db0) - Elements(marked + page[..i]) {
      StretchUnmarked(marked, page, i, j, x);
    }
    OpenBatch(b, batch);
  }

  /** The page is the next stretch of the order, and full unless it is the last. */
  ghost predicate FollowsInOrder(marked: seq<int>, page: seq<int>, limit: nat, order: seq<int>) {
    var m := |marked|;
    && m + |page| <= |order| && marked + page == order[..m + |page|]
    && |page| == Least(limit, |order| - m)
  }

  lemma PageFollows(a: Account, last: int, page: seq<int>, limit: nat, order: seq<int>)
    requires IsSettled(a) && AtCursor(a, last) && limit > 0 && IsOrder(order, Unembedded(a.db0))
    requires page == Page(Unembedded(a.db), last, limit)
    ensures FollowsInOrder(a.ledger.marked, page, limit, order)
  {
    PageIds(a, last, page, limit);
    MarksAreSome(a);
    NextInOrder(a.ledger.marked, page, order, Unembedded(a.db0), last);
    RestOfOrder(Unembedded(a.db0), a.ledger.marked, order, Unembedded(a.db));
    assert Above(Unembedded(a.db), last) == Unembedded(a.db);
    PageLength(Unembedded(a.db), last, limit);
  }

  lemma MarksAreSome(a: Account)
    requires IsSettled(a)
    ensures Ascending(a.ledger.marked) && Elements(a.ledger.marked) <= Unembedded(a.db0)
  {
    OpenAccount(a);
  }

  lemma RestOfOrder(all: set<int>, marked: seq<int>, order: seq<int>, rest: set<int>)
    requires IsOrder(order, all) && Ascending(marked) && Elements(marked) <= all && rest == all - Elements(marked)
    ensures |rest| == |order| - |marked|
  {
    AscendingSize(marked);
    AscendingSize(order);
    assert all == Elements(marked) + rest;
  }

  lemma NextInOrder(marked: seq<int>, page: seq<int>, order: seq<int>, ids: set<int>, last: int)
    requires IsOrder(order, ids) && Ascending(marked) && Elements(marked) <= ids
    requires (forall m :: m in marked ==> m <= last) && forall c :: c in ids - Elements(marked) ==> c > last
    requires Ascending(page) && Elements(page) <= ids - Elements(marked)
    requires page != [] ==> forall c :: c in ids - Elements(marked) - Elements(page) ==> c > page[|page| - 1]
    ensures |marked| + |page| <= |order| && marked + page == order[..|marked| + |page|]
  {
    var both := marked + page;
    ElementsAppend(marked, page);
    forall x, y | x in marked && y in page ensures x < y {
      assert y in Elements(page);
    }
    AscendingConcat(marked, page);
    forall c, m | c in ids && c !in both && m in both ensures c > m {
      assert c in ids - Elements(marked) && c !in Elements(page);
      if m in page {
        LastIsGreatest(page, m);
        assert c in ids - Elements(marked) - Elements(page);
      } else {
        assert m in marked && m <= last;
      }
    }
    IsPrefix(both, order, ids);
  }

  /** What a batch needs is what it lacked when the run began. */
  lemma NeedFits(a: Account, batch: seq<int>, need: seq<int>, p: Plan, size: nat, i: nat)
    requires IsSettled(a) && IsNext(a, batch) && IsNeed(a, batch, need)
    requires p.stored == a.vecs0.Keys && StretchAt(p.order, size, batch, i)
    ensures TakesStretch(p, size, need)
  {
    OpenAccount(a);
    OpenBatch(a, batch);
    forall c ensures c in Elements(batch) ==> (c in a.vecs.Keys <==> c in a.vecs0.Keys) {
      if c in Elements(batch) && c in a.vecs.Keys - a.vecs0.Keys {
        assert c in Elements(a.ledger.marked);
      }
    }
    assert Elements(need) == Elements(batch) - p.stored;
  }

  lemma LastIsGreatest(s: seq<int>, x: int)
    requires Ascending(s) && x in s
    ensures x <= s[|s| - 1]
  {
    var k :| 0 <= k < |s| && s[k] == x;
  }

  lemma PageDone(a: Account, last: int, page: seq<int>, limit: nat, b: Account)
    requires IsSettled(a) && AtCursor(a, last) && limit > 0
    requires page == Page(Unembedded(a.db), last, limit) && page != []
    requires PageMarked(a, page, |page|, b)
    ensures AtCursor(b, page[|page| - 1])
  {
    OpenAccount(a);
    PageIds(a, last, page, limit);
    var top := page[|page| - 1];
    assert top in page;
    assert page[..|page|] == page;
    ElementsAppend(a.ledger.marked, page);
    forall m | m in b.ledger.marked ensures m <= top {
      if m in page {
        LastIsGreatest(page, m);
      } else {
        assert m in a.ledger.marked;
      }
    }
    forall c | c in Unembedded(b.db0) - Elements(b.ledger.marked) ensures c > top {
      assert c in Unembedded(a.db) - Elements(page);
    }
  }

  lemma NothingLeft(a: Account, last: int, limit: nat)
    requires IsSettled(a) && AtCursor(a, last) && limit > 0
    requires Page(Unembedded(a.db), last, limit) == []
    ensures Elements(a.ledger.marked) == Unembedded(a.db0)
  {
    OpenAccount(a);
    PageIds(a, last, [], limit);
  }

  lemma MarkedAtMostAll(a: Account)
    requires IsSound(a)
    ensures |a.ledger.marked| <= |Unembedded(a.db0)|
    ensures Elements(a.ledger.marked) == Unembedded(a.db0) ==> |a.ledger.marked| == |Unembedded(a.db0)|
  {
    OpenAccount(a);
    AscendingSize(a.ledger.marked);
    SubsetSize(Elements(a.ledger.marked), Unembedded(a.db0));
  }

  // ---- Retrying deferred chunks ----

  lemma SoundWhateverDeferred(a: Account, deferred: seq<int>)
    requires IsSound(a)
    ensures IsSound(a.(deferred := deferred))
  {
    OpenAccount(a);
    OpenAccount(a.(deferred := deferred));
  }

  lemma RemoveOne(pre: seq<int>, id: int, post: seq<int>)
    requires |Elements(pre + [id] + post)| == |pre + [id] + post|
    ensures Elements(pre + post) == Elements(pre + [id] + post) - {id}
    ensures id in Elements(pre + [id] + post) && |Elements(pre + post)| == |pre + post|
  {
    ElementsAppend(pre, [id]);
    ElementsAppend(pre + [id], post);
    ElementsAppend(pre, post);
    assert Elements([id]) == {id};
    ElementsAtMost(pre + post);
    assert Elements(pre + [id] + post) == Elements(pre + post) + {id};
    AddingSize(Elements(pre + post), id);
  }

  lemma AddingSize(s: set<int>, id: int)
    ensures |s + {id}| == if id in s then |s| else |s| + 1
  {
    if id in s {
      assert s + {id} == s;
    }
  }

  lemma {:induction false} ElementsAtMost(s: seq<int>)
    ensures |Elements(s)| <= |s|
  {
    if s != [] {
      var init, last := s[..|s| - 1], s[|s| - 1];
      ElementsAtMost(init);
      assert s == init + [last];
      ElementsAppend(init, [last]);
      assert Elements([last]) == {last};
      SubsetSize(Elements(s), Elements(init) + {last});
    }
  }

  /** The account after the retry of one chunk: not waiting any more, and skipped if so. */
  function Retried(a: Account, id: int, skip: bool, vecs: map<Int64, Vector>, deferred: seq<int>): Account {
    a.(vecs := vecs, deferred := deferred,
       ledger := a.ledger.(waiting := a.ledger.waiting - {id},
                           skipped := if skip then a.ledger.skipped + {id} else a.ledger.skipped))
  }

  lemma RetrySkips(a: Account, pre: seq<int>, id: int, post: seq<int>)
    requires IsSettled(a) && a.deferred == pre + [id] + post
    ensures var b := Retried(a, id, true, a.vecs, pre + post);
      IsSettled(b) && |b.ledger.skipped| == |a.ledger.skipped| + 1
  {
    var b := Retried(a, id, true, a.vecs, pre + post);
    OpenAccount(a);
    OpenAccount(b);
    RemoveOne(pre, id, post);
    RetrySettlesOne(a.db0, a.vecs0.Keys, a.db, a.vecs.Keys, a.ledger, id);
  }

  lemma StoredVector(vecs0: map<Int64, Vector>, vecs: map<Int64, Vector>, id: Int64, v: Vector)
    requires Keeps(vecs0, vecs) && id !in vecs
    ensures Keeps(vecs0, vecs[id := v]) && vecs[id := v].Keys == vecs.Keys + {id}
  {}

  lemma RetryStores(a: Account, pre: seq<int>, id: Int64, post: seq<int>, v: Vector)
    requires IsSettled(a) && a.deferred == pre + [id] + post
    ensures IsSettled(Retried(a, id, false, a.vecs[id := v], pre + post))
  {
    OpenAccount(a);
    RemoveOne(pre, id, post);
    StoredIsSettled(a, pre + post, id, v);
  }

  lemma StoredIsSettled(a: Account, rest: seq<int>, id: Int64, v: Vector)
    requires IsSettled(a) && id in a.ledger.waiting
    requires Elements(rest) == a.ledger.waiting - {id} && |Elements(rest)| == |rest|
    ensures IsSettled(Retried(a, id, false, a.vecs[id := v], rest))
  {
    OpenAccount(a);
    OpenAccount(Retried(a, id, false, a.vecs[id := v], rest));
    RetrySettlesOne(a.db0, a.vecs0.Keys, a.db, a.vecs.Keys, a.ledger, id);
    StoredVector(a.vecs0, a.vecs, id, v);
  }

  lemma WaitingIdsFit(a: Account)
    requires IsSettled(a)
    ensures forall id :: id in a.deferred ==> 0 < id < 0x8000_0000_0000_0000
  {
    OpenAccount(a);
    forall id | id in a.deferred ensures 0 < id < 0x8000_0000_0000_0000 {
      assert id in Elements(a.deferred);
    }
  }

  /** After the last pass the chunks still waiting are counted as skipped. */
  lemma GiveUp(a: Account)
    requires IsSettled(a)
    ensures var b := a.(deferred := [], ledger := a.ledger.(waiting := {},
        skipped := a.ledger.skipped + a.ledger.waiting));
      IsSettled(b) && |b.ledger.skipped| == |a.ledger.skipped| + |a.deferred|
  {
    var b := a.(deferred := [], ledger := a.ledger.(waiting := {}, skipped := a.ledger.skipped + a.ledger.waiting));
    OpenAccount(a);
    OpenAccount(b);
    RetryGivesUp(a.db0, a.vecs0.Keys, a.db, a.vecs.Keys, a.ledger);
    assert Elements([]) == {};
  }

  // ---- The end of a run ----

  /** What a finished run has done, in terms of where it began and ended. */
  ghost predicate RunComplete(a: Account) {
    var all := Unembedded(a.db0);
    // each chunk was marked exactly once, in id order, and the database says so
    && Ascending(a.ledger.marked) && Elements(a.ledger.marked) == all && |a.ledger.marked| == |all|
    && a.db == Marked(a.db0, all) && Unembedded(a.db) == {}
    // old vectors are untouched and only chunks of the run have new ones
    && Keeps(a.vecs0, a.vecs) && a.vecs.Keys - a.vecs0.Keys <= all
    // nothing is lost
    && all - a.vecs.Keys == a.ledger.skipped + a.ledger.rejected
    && |all| == |all * a.vecs.Keys| + |a.ledger.skipped| + |a.ledger.rejected|
  }

  lemma Finish(a: Account, deferred: seq<int>)
    requires IsSettled(a) && Elements(a.ledger.marked) == Unembedded(a.db0) && a.ledger.waiting == {}
    ensures RunComplete(a.(deferred := deferred))
  {
    OpenAccount(a);
    MarkedAtMostAll(a);
    Conservation(a.db0, a.vecs0.Keys, a.db, a.vecs.Keys, a.ledger);
  }
}
