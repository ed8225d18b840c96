/**
 The session store (internal/core/session.go): an LRU map of recently returned code locations with
 decay driven by one generation counter instead of a counter per entry.

 `Session` is the value of a store; `SessionStore` is the mutable object. The clock is a parameter.
 */
module SessionTracking {
  // ---- Keys ----

  datatype SessionHit = SessionHit(filePath: string, startLine: int)

  function Digit(d: nat): (c: char)
    requires d < 10
    ensures c != ':' && c != '-'
  {
    ('0' as int + d) as char
  }

  function Digits(n: nat): (s: string)
    ensures s != [] && ':' !in s && '-' !in s
  {
    if n < 10 then [Digit(n)] else Digits(n / 10) + [Digit(n % 10)]
  }

  function Decimal(n: int): (s: string)
    ensures ':' !in s
  {
    if n < 0 then "-" + Digits(-n) else Digits(n)
  }

  function SessionKey(filePath: string, startLine: int): string {
    filePath + ":" + Decimal(startLine)
  }

  datatype Key = Key(text: string)

  function KeyOf(h: SessionHit): Key {
    Key(SessionKey(h.filePath, h.startLine))
  }

  function KeysOf(hits: seq<SessionHit>): (ks: seq<Key>)
    ensures |ks| == |hits|
    ensures forall i :: 0 <= i < |hits| ==> ks[i] == KeyOf(hits[i])
  {
    seq(|hits|, i requires 0 <= i < |hits| => KeyOf(hits[i]))
  }

  lemma {:induction false} DigitsInjective(m: nat, n: nat)
    requires Digits(m) == Digits(n)
    ensures m == n
  {
    var s := Digits(m);
    assert |s| == 1 <==> m < 10;
    assert |s| == 1 <==> n < 10;
    if m >= 10 {
      assert s[..|s| - 1] == Digits(m / 10);
      assert s[..|s| - 1] == Digits(n / 10);
      DigitsInjective(m / 10, n / 10);
    }
    assert s[|s| - 1] == Digit(m % 10) == Digit(n % 10);
  }

  lemma DecimalInjective(m: int, n: int)
    requires Decimal(m) == Decimal(n)
    ensures m == n
  {
    assert m < 0 <==> '-' in Decimal(m);
    assert n < 0 <==> '-' in Decimal(n);
    if m < 0 {
      assert Decimal(m)[1..] == Digits(-m) && Decimal(n)[1..] == Digits(-n);
      DigitsInjective(-m, -n);
    } else {
      DigitsInjective(m, n);
    }
  }

  lemma NoColonAfterPath(p: string, m: int)
    ensures forall i :: |p| < i < |SessionKey(p, m)| ==> SessionKey(p, m)[i] != ':'
  {
    forall i | |p| < i < |SessionKey(p, m)|
      ensures SessionKey(p, m)[i] != ':'
    {
      assert SessionKey(p, m)[i] == Decimal(m)[i - |p| - 1];
    }
  }

  /** Two locations share an entry only if they are the same location, even when paths hold colons. */
  lemma KeysIdentifyLocations(p: string, m: int, q: string, n: int)
    requires SessionKey(p, m) == SessionKey(q, n)
    ensures p == q && m == n
  {
    var k := SessionKey(p, m);
    assert k[|p|] == ':' && k[|q|] == ':';
    assert |q| <= |p| by {
      NoColonAfterPath(p, m);
    }
    assert |p| <= |q| by {
      NoColonAfterPath(q, n);
    }
    assert p == k[..|p|] && q == k[..|q|];
    assert Decimal(m) == k[|p| + 1..] && Decimal(n) == k[|q| + 1..];
    DecimalInjective(m, n);
  }

  // ---- Recency lists ----

  ghost predicate Distinct(s: seq<Key>) {
    s == [] || (s[0] !in s[1..] && Distinct(s[1..]))
  }

  function Elements(s: seq<Key>): set<Key> {
    set x | x in s
  }

  function Without(s: seq<Key>, k: Key): (r: seq<Key>)
    ensures forall x :: x in r <==> x in s && x != k
  {
    if s == [] then [] else (if s[0] == k then [] else [s[0]]) + Without(s[1..], k)
  }

  function MovedToBack(s: seq<Key>, k: Key): seq<Key> {
    Without(s, k) + [k]
  }

  lemma {:induction false} WithoutAbsent(s: seq<Key>, k: Key)
    requires k !in s
    ensures Without(s, k) == s
  {
    if s != [] {
      WithoutAbsent(s[1..], k);
    }
  }

  lemma {:induction false} WithoutConcat(a: seq<Key>, b: seq<Key>, k: Key)
    ensures Without(a + b, k) == Without(a, k) + Without(b, k)
  {
    if a == [] {
      assert a + b == b;
    } else {
      assert (a + b)[1..] == a[1..] + b;
      WithoutConcat(a[1..], b, k);
    }
  }

  lemma {:induction false} DistinctConcat(a: seq<Key>, b: seq<Key>)
    ensures Distinct(a + b) <==> Distinct(a) && Distinct(b) && forall x :: x in a ==> x !in b
  {
    if a == [] {
      assert a + b == b;
    } else {
      assert (a + b)[1..] == a[1..] + b;
      assert a == [a[0]] + a[1..];
      DistinctConcat(a[1..], b);
    }
  }

  lemma {:induction false} WithoutDistinct(s: seq<Key>, k: Key)
    requires Distinct(s)
    ensures Distinct(Without(s, k)) && Distinct(MovedToBack(s, k))
    ensures |Without(s, k)| == if k in s then |s| - 1 else |s|
  {
    if s != [] {
      WithoutDistinct(s[1..], k);
      var r := Without(s[1..], k);
      if s[0] == k {
        assert Without(s, k) == r;
      } else {
        assert Without(s, k) == [s[0]] + r;
        assert Distinct([s[0]]);
        DistinctConcat([s[0]], r);
      }
    }
    DistinctConcat(Without(s, k), [k]);
  }

  lemma {:induction false} DistinctCardinality(s: seq<Key>)
    requires Distinct(s)
    ensures |Elements(s)| == |s|
  {
    if s != [] {
      DistinctCardinality(s[1..]);
      assert s == [s[0]] + s[1..];
      assert Elements(s) == {s[0]} + Elements(s[1..]);
      assert s[0] !in Elements(s[1..]);
    }
  }

  function LastN(s: seq<Key>, n: nat): (r: seq<Key>)
    ensures |r| <= n
  {
    if |s| <= n then s else s[|s| - n..]
  }

  // ---- The store as a value ----

  datatype Entry = Entry(accessCount: nat, lastAccessed: int, lastGeneration: int)

  datatype Session = Session(
    entries: map<Key, Entry>,
    order: seq<Key>,
    generation: int,
    maxSize: nat
  )

  /** The map and the list hold the same keys, each once, and never more than the capacity. */
  ghost predicate Consistent(s: Session) {
    && s.maxSize >= 1
    && Distinct(s.order)
    && s.entries.Keys == Elements(s.order)
    && |s.order| <= s.maxSize
  }

  function Evicted(s: Session): Session {
    if s.order != [] && |s.order| >= s.maxSize
    then s.(entries := s.entries - {s.order[0]}, order := s.order[1..])
    else s
  }

  /** One recorded access: refresh an entry, or make room and add it at the back. */
  function Touched(s: Session, key: Key, now: int): Session {
    if key in s.entries then
      s.(entries := s.entries[key := Entry(s.entries[key].accessCount + 1, now, s.generation)],
         order := MovedToBack(s.order, key))
    else
      var e := Evicted(s);
      e.(entries := e.entries[key := Entry(1, now, s.generation)], order := e.order + [key])
  }

  function TouchedAll(s: Session, keys: seq<Key>, now: int): Session {
    if keys == [] then s
    else Touched(TouchedAll(s, keys[..|keys| - 1], now), keys[|keys| - 1], now)
  }

  lemma TouchedAllSnoc(s: Session, keys: seq<Key>, i: nat, now: int)
    requires i < |keys|
    ensures TouchedAll(s, keys[..i + 1], now) == Touched(TouchedAll(s, keys[..i], now), keys[i], now)
  {
    var more := keys[..i + 1];
    assert more[..|more| - 1] == keys[..i] && more[|more| - 1] == keys[i];
  }

  function Advanced(s: Session): Session {
    s.(generation := s.generation + 1)
  }

  function Exempted(s: Session, keys: seq<Key>): Session {
    s.(entries := map k | k in s.entries ::
         if k in keys then s.entries[k].(lastGeneration := s.generation) else s.entries[k])
  }

  lemma ExemptedSnoc(s: Session, keys: seq<Key>, key: Key)
    ensures var e := Exempted(s, keys);
      Exempted(s, keys + [key]) ==
      if key in e.entries
      then e.(entries := e.entries[key := e.entries[key].(lastGeneration := s.generation)])
      else e
  {
    var e, f := Exempted(s, keys), Exempted(s, keys + [key]);
    assert e.entries.Keys == f.entries.Keys == s.entries.Keys;
    forall k | k in s.entries
      ensures f.entries[k] == if k == key then e.entries[k].(lastGeneration := s.generation) else e.entries[k]
    {}
  }

  lemma ExemptedConsistent(s: Session, keys: seq<Key>)
    requires Consistent(s)
    ensures Consistent(Exempted(s, keys))
  {
    assert Exempted(s, keys).entries.Keys == s.entries.Keys;
  }

  function NewSession(maxSize: int): Session {
    Session(map[], [], 0, if maxSize <= 0 then 2000 else maxSize)
  }

  lemma EvictedConsistent(s: Session)
    requires Consistent(s)
    ensures Consistent(Evicted(s)) && |Evicted(s).order| < s.maxSize
    ensures forall k :: k in Evicted(s).order ==> k in s.order
  {
    if s.order != [] {
      assert s.order == [s.order[0]] + s.order[1..];
    }
  }

  lemma TouchedConsistent(s: Session, key: Key, now: int)
    requires Consistent(s)
    ensures Consistent(Touched(s, key, now))
    ensures key in Touched(s, key, now).entries
  {
    if key in s.entries {
      WithoutDistinct(s.order, key);
      assert Elements(MovedToBack(s.order, key)) == Elements(s.order);
    } else {
      EvictedConsistent(s);
      var kept := Evicted(s).order;
      assert key !in kept;
      DistinctConcat(kept, [key]);
      assert Elements(kept + [key]) == Elements(kept) + {key};
    }
  }

  lemma {:induction false} TouchedAllConsistent(s: Session, keys: seq<Key>, now: int)
    requires Consistent(s)
    ensures Consistent(TouchedAll(s, keys, now))
  {
    if keys != [] {
      TouchedAllConsistent(s, keys[..|keys| - 1], now);
      TouchedConsistent(TouchedAll(s, keys[..|keys| - 1], now), keys[|keys| - 1], now);
    }
  }

  // ---- The mutable store ----

  class SessionStore {
    var entries: map<Key, Entry>
    var order: seq<Key>
    var generation: int
    const maxSize: nat

    constructor (maxSize: int)
      ensures View() == NewSession(maxSize)
      ensures Consistent(View())
    {
      this.maxSize := if maxSize <= 0 then 2000 else maxSize;
      entries := map[];
      order := [];
      generation := 0;
    }

    ghost function View(): Session
      reads this
    {
      Session(entries, order, generation, maxSize)
    }

    method EvictIfNeeded()
      requires Consistent(View())
      modifies this
      ensures View() == Evicted(old(View()))
      ensures |entries| < maxSize
    {
      DistinctCardinality(order);
      while |entries| >= maxSize
        invariant Consistent(View())
        invariant |entries| == |order|
        invariant View() == old(View()) || (View() == Evicted(old(View())) && |order| < maxSize)
        decreases |order|
      {
        if order == [] {
          break;
        }
        var front := order[0];
        EvictedConsistent(View());
        order := order[1..];
        entries := entries - {front};
        DistinctCardinality(order);
      }
    }

    method Touch(key: Key, now: int)
      requires Consistent(View())
      modifies this
      ensures View() == Touched(old(View()), key, now)
    {
      if key in entries {
        entries := entries[key := Entry(entries[key].accessCount + 1, now, generation)];
        order := MovedToBack(order, key);
      } else {
        TouchNew(key, now);
      }
    }

    method TouchNew(key: Key, now: int)
      requires Consistent(View()) && key !in entries
      modifies this
      ensures View() == Touched(old(View()), key, now)
    {
      EvictIfNeeded();
      entries := entries[key := Entry(1, now, generation)];
      order := order + [key];
    }

    method TouchHits(hits: seq<SessionHit>, now: int)
      requires Consistent(View())
      modifies this
      ensures View() == TouchedAll(old(View()), KeysOf(hits), now)
      ensures Consistent(View())
    {
      var keys := KeysOf(hits);
      assert keys[..0] == [];
      for i := 0 to |hits|
        invariant Consistent(View())
        invariant View() == TouchedAll(old(View()), keys[..i], now)
      {
        TouchedConsistent(View(), KeyOf(hits[i]), now);
        TouchedAllSnoc(old(View()), keys, i, now);
        Touch(KeyOf(hits[i]), now);
      }
      assert keys[..|hits|] == keys;
    }

    method RecordAccess(filePath: string, startLine: int, now: int)
      requires Consistent(View())
      modifies this
      ensures View() == Applied(old(View()), RecordOne(SessionHit(filePath, startLine), now))
      ensures Consistent(View())
    {
      TouchedConsistent(View(), KeyOf(SessionHit(filePath, startLine)), now);
      Touch(KeyOf(SessionHit(filePath, startLine)), now);
    }

    method RecordBatch(hits: seq<SessionHit>, now: int)
      requires Consistent(View())
      modifies this
      ensures View() == Applied(old(View()), RecordMany(hits, now))
      ensures Consistent(View())
    {
      TouchHits(hits, now);
    }

    method RecordAndDecay(hits: seq<SessionHit>, now: int)
      requires Consistent(View())
      modifies this
      ensures View() == Applied(old(View()), Query(hits, now))
      ensures Consistent(View())
    {
      ghost var advanced := Advanced(View());
      generation := generation + 1;
      assert View() == advanced;
      TouchHits(hits, now);
    }

    method DecayAllExcept(hits: seq<SessionHit>)
      requires Consistent(View())
      modifies this
      ensures View() == Applied(old(View()), Decay(hits))
      ensures Consistent(View())
    {
      ExemptedConsistent(Advanced(View()), KeysOf(hits));
      generation := generation + 1;
      ExemptHits(hits);
    }

    method ExemptHits(hits: seq<SessionHit>)
      modifies this
      ensures View() == Exempted(old(View()), KeysOf(hits))
    {
      var keys := KeysOf(hits);
      assert entries == Exempted(View(), keys[..0]).entries;
      for i := 0 to |hits|
        invariant View() == Exempted(old(View()), keys[..i])
      {
        var key := KeyOf(hits[i]);
        ExemptedSnoc(old(View()), keys[..i], key);
        assert keys[..i + 1] == keys[..i] + [key];
        if key in entries {
          entries := entries[key := entries[key].(lastGeneration := generation)];
        }
      }
      assert keys[..|hits|] == keys;
    }
  }

  // ---- Histories ----

  datatype Op =
    | RecordOne(hit: SessionHit, now: int)
    | RecordMany(hits: seq<SessionHit>, now: int)
    | Query(hits: seq<SessionHit>, now: int)
    | Decay(hits: seq<SessionHit>)

  function Applied(s: Session, op: Op): Session {
    match op
    case RecordOne(hit, now) => Touched(s, KeyOf(hit), now)
    case RecordMany(hits, now) => TouchedAll(s, KeysOf(hits), now)
    case Query(hits, now) => TouchedAll(Advanced(s), KeysOf(hits), now)
    case Decay(hits) => Exempted(Advanced(s), KeysOf(hits))
  }

  function Run(maxSize: int, ops: seq<Op>): Session {
    if ops == [] then NewSession(maxSize)
    else Applied(Run(maxSize, ops[..|ops| - 1]), ops[|ops| - 1])
  }

  function HitKeys(op: Op): seq<Key> {
    match op
    case RecordOne(hit, _) => [KeyOf(hit)]
    case RecordMany(hits, _) => KeysOf(hits)
    case Query(hits, _) => KeysOf(hits)
    case Decay(hits) => KeysOf(hits)
  }

  predicate AdvancesQueryCount(op: Op) {
    op.Query? || op.Decay?
  }

  lemma {:induction false} RunConsistent(maxSize: int, ops: seq<Op>)
    ensures Consistent(Run(maxSize, ops))
    ensures Run(maxSize, ops).maxSize == NewSession(maxSize).maxSize
  {
    if ops != [] {
      var s, op := Run(maxSize, ops[..|ops| - 1]), ops[|ops| - 1];
      RunConsistent(maxSize, ops[..|ops| - 1]);
      match op
      case RecordOne(hit, now) => TouchedConsistent(s, KeyOf(hit), now);
      case RecordMany(hits, now) => TouchedAllFrame(s, KeysOf(hits), now);
      case Query(hits, now) => TouchedAllFrame(Advanced(s), KeysOf(hits), now);
      case Decay(hits) => ExemptedConsistent(Advanced(s), KeysOf(hits));
    }
  }

  // ---- Lazy decay counts eagerly ----

  /** How many queries a key has missed since an operation last named it: counted on the history. */
  function MissedQueries(ops: seq<Op>, key: Key): nat {
    if ops == [] then 0
    else
      var op, before := ops[|ops| - 1], ops[..|ops| - 1];
      if key in HitKeys(op) then 0
      else MissedQueries(before, key) + if AdvancesQueryCount(op) then 1 else 0
  }

  lemma {:induction false} TouchedAllFrame(s: Session, keys: seq<Key>, now: int)
    requires Consistent(s)
    ensures var t := TouchedAll(s, keys, now);
      && Consistent(t)
      && t.generation == s.generation && t.maxSize == s.maxSize
      && (forall k :: k in t.entries && k in keys ==> t.entries[k].lastGeneration == s.generation)
      && (forall k :: k in t.entries && k !in keys ==> k in s.entries && t.entries[k] == s.entries[k])
  {
    if keys != [] {
      var init, last := keys[..|keys| - 1], keys[|keys| - 1];
      TouchedAllFrame(s, init, now);
      TouchedConsistent(TouchedAll(s, init, now), last, now);
      assert keys == init + [last];
    }
  }

  /** One operation moves the lazy distance of a held entry exactly as the eager counter moves. */
  lemma StepCountsMisses(s: Session, op: Op, key: Key)
    requires Consistent(s)
    requires key in Applied(s, op).entries
    ensures var t := Applied(s, op);
      if key in HitKeys(op) then t.generation == t.entries[key].lastGeneration
      else
        && key in s.entries
        && t.entries[key].lastGeneration == s.entries[key].lastGeneration
        && t.generation == s.generation + if AdvancesQueryCount(op) then 1 else 0
  {
    match op
    case RecordOne(hit, now) =>
      assert TouchedAll(s, [], now) == s;
      assert [KeyOf(hit)][..0] == [];
      TouchedAllFrame(s, [KeyOf(hit)], now);
    case RecordMany(hits, now) => TouchedAllFrame(s, KeysOf(hits), now);
    case Query(hits, now) => TouchedAllFrame(Advanced(s), KeysOf(hits), now);
    case Decay(hits) =>
  }

  lemma {:induction false} LazyDecayCountsMissedQueries(maxSize: int, ops: seq<Op>, key: Key)
    requires key in Run(maxSize, ops).entries
    ensures var s := Run(maxSize, ops);
      s.generation - s.entries[key].lastGeneration == MissedQueries(ops, key)
  {
    if ops != [] {
      var before, op := ops[..|ops| - 1], ops[|ops| - 1];
      RunConsistent(maxSize, before);
      StepCountsMisses(Run(maxSize, before), op, key);
      if key !in HitKeys(op) {
        LazyDecayCountsMissedQueries(maxSize, before, key);
      }
    }
  }

  // ---- The list is the least-recently-used order ----

  /** The keys a history recorded, in order, repeats included. */
  function AccessLog(ops: seq<Op>): seq<Key> {
    if ops == [] then []
    else AccessLog(ops[..|ops| - 1]) + if ops[|ops| - 1].Decay? then [] else HitKeys(ops[|ops| - 1])
  }

  /** Each key of a log once, ordered by its last occurrence. */
  function ByLastUse(log: seq<Key>): seq<Key> {
    if log == [] then [] else MovedToBack(ByLastUse(log[..|log| - 1]), log[|log| - 1])
  }

  lemma {:induction false} ByLastUseDistinct(log: seq<Key>)
    ensures Distinct(ByLastUse(log))
  {
    if log != [] {
      ByLastUseDistinct(log[..|log| - 1]);
      WithoutDistinct(ByLastUse(log[..|log| - 1]), log[|log| - 1]);
    }
  }

  lemma ConcatAssociative(a: seq<Key>, b: seq<Key>, c: seq<Key>)
    ensures (a + b) + c == a + (b + c)
  {}

  lemma LastNConcat(a: seq<Key>, b: seq<Key>, n: nat)
    requires |b| == n || (a == [] && |b| <= n)
    ensures LastN(a + b, n) == b
  {
    assert (a + b)[|a|..] == b;
  }

  lemma LastNOfRefreshed(dropped: seq<Key>, kept: seq<Key>, n: nat, key: Key)
    requires Distinct(dropped + kept)
    requires |kept| == n || (dropped == [] && |kept| <= n)
    requires key in kept
    ensures LastN(MovedToBack(dropped + kept, key), n) == MovedToBack(kept, key)
  {
    DistinctConcat(dropped, kept);
    WithoutConcat(dropped, kept, key);
    WithoutDistinct(kept, key);
    WithoutAbsent(dropped, key);
    ConcatAssociative(dropped, Without(kept, key), [key]);
    LastNConcat(dropped, MovedToBack(kept, key), n);
  }

  lemma LastNOfAdded(dropped: seq<Key>, kept: seq<Key>, n: nat, key: Key)
    requires n >= 1
    requires |kept| == n || (dropped == [] && |kept| < n)
    requires key !in kept
    ensures LastN(MovedToBack(dropped + kept, key), n) == (if |kept| >= n then kept[1..] else kept) + [key]
  {
    var front := Without(dropped, key);
    WithoutAbsent(kept, key);
    WithoutConcat(dropped, kept, key);
    ConcatAssociative(front, kept, [key]);
    if |kept| >= n {
      var rest := kept[1..] + [key];
      assert kept + [key] == kept[..1] + rest;
      ConcatAssociative(front, kept[..1], rest);
      LastNConcat(front + kept[..1], rest, n);
    } else {
      LastNConcat(front, kept + [key], n);
    }
  }

  lemma SplitLastN(all: seq<Key>, n: nat) returns (dropped: seq<Key>, kept: seq<Key>)
    ensures all == dropped + kept && kept == LastN(all, n)
    ensures |kept| == n || (dropped == [] && |kept| < n)
  {
    kept := LastN(all, n);
    dropped := all[..|all| - |kept|];
  }

  lemma {:induction false} LastNMovedToBack(all: seq<Key>, n: nat, key: Key)
    requires n >= 1 && Distinct(all)
    ensures key in LastN(all, n) ==> LastN(MovedToBack(all, key), n) == MovedToBack(LastN(all, n), key)
    ensures key !in LastN(all, n) ==>
              var kept := LastN(all, n);
              LastN(MovedToBack(all, key), n) == (if |kept| >= n then kept[1..] else kept) + [key]
  {
    var dropped, kept := SplitLastN(all, n);
    if key in kept {
      LastNOfRefreshed(dropped, kept, n, key);
    } else {
      LastNOfAdded(dropped, kept, n, key);
    }
  }

  lemma TouchedFollowsLastUse(s: Session, log: seq<Key>, key: Key, now: int)
    requires Consistent(s)
    requires s.order == LastN(ByLastUse(log), s.maxSize)
    ensures Touched(s, key, now).order == LastN(ByLastUse(log + [key]), s.maxSize)
  {
    assert (log + [key])[..|log|] == log;
    ByLastUseDistinct(log);
    LastNMovedToBack(ByLastUse(log), s.maxSize, key);
    assert key in s.entries <==> key in s.order;
  }

  lemma AppendInTwo(log: seq<Key>, keys: seq<Key>)
    requires keys != []
    ensures log + keys == (log + keys[..|keys| - 1]) + [keys[|keys| - 1]]
  {}

  lemma {:induction false} TouchedAllFollowsLastUse(s: Session, log: seq<Key>, keys: seq<Key>, now: int)
    requires Consistent(s)
    requires s.order == LastN(ByLastUse(log), s.maxSize)
    ensures TouchedAll(s, keys, now).order == LastN(ByLastUse(log + keys), s.maxSize)
  {
    if keys == [] {
      assert log + keys == log;
    } else {
      var init, last := keys[..|keys| - 1], keys[|keys| - 1];
      TouchedAllFollowsLastUse(s, log, init, now);
      TouchedAllFrame(s, init, now);
      TouchedFollowsLastUse(TouchedAll(s, init, now), log + init, last, now);
      AppendInTwo(log, keys);
    }
  }

  /** After any history the store holds exactly the `maxSize` most recently recorded locations. */
  lemma {:induction false} ListIsLeastRecentlyUsedOrder(maxSize: int, ops: seq<Op>)
    ensures Run(maxSize, ops).order == LastN(ByLastUse(AccessLog(ops)), NewSession(maxSize).maxSize)
  {
    if ops != [] {
      var before, op := ops[..|ops| - 1], ops[|ops| - 1];
      var s, log := Run(maxSize, before), AccessLog(before);
      ListIsLeastRecentlyUsedOrder(maxSize, before);
      RunConsistent(maxSize, before);
      match op
      case RecordOne(hit, now) => TouchedFollowsLastUse(s, log, KeyOf(hit), now);
      case RecordMany(hits, now) => TouchedAllFollowsLastUse(s, log, KeysOf(hits), now);
      case Query(hits, now) => TouchedAllFollowsLastUse(Advanced(s), log, KeysOf(hits), now);
      case Decay(hits) => assert log + [] == log;
    }
  }

  // ---- What an entry remembers ----

  /** The time of the last operation that recorded the key. */
  function LastTime(ops: seq<Op>, key: Key): int {
    if ops == [] then 0
    else
      var op, before := ops[|ops| - 1], ops[..|ops| - 1];
      if !op.Decay? && key in HitKeys(op) then op.now else LastTime(before, key)
  }

  /** How often a log records the key since it last came in: it is held while it is among the `n` last used ones. */
  function UsesWhileHeld(log: seq<Key>, n: nat, key: Key): nat {
    if log == [] then 0
    else
      var before := log[..|log| - 1];
      if log[|log| - 1] != key then UsesWhileHeld(before, n, key)
      else if key in LastN(ByLastUse(before), n) then UsesWhileHeld(before, n, key) + 1
      else 1
  }

  ghost predicate CountsUses(s: Session, log: seq<Key>) {
    forall k :: k in s.entries ==> s.entries[k].accessCount == UsesWhileHeld(log, s.maxSize, k)
  }

  lemma TouchedCountsUses(s: Session, log: seq<Key>, key: Key, now: int)
    requires Consistent(s) && s.order == LastN(ByLastUse(log), s.maxSize) && CountsUses(s, log)
    ensures CountsUses(Touched(s, key, now), log + [key])
  {
    var t, more := Touched(s, key, now), log + [key];
    assert more[..|more| - 1] == log;
    assert key in s.entries <==> key in Elements(s.order);
    forall k | k in t.entries ensures t.entries[k].accessCount == UsesWhileHeld(more, s.maxSize, k) {
      assert k != key ==> k in s.entries && t.entries[k] == s.entries[k];
    }
  }

  lemma {:induction false} TouchedAllCountsUses(s: Session, log: seq<Key>, keys: seq<Key>, now: int)
    requires Consistent(s) && s.order == LastN(ByLastUse(log), s.maxSize) && CountsUses(s, log)
    ensures CountsUses(TouchedAll(s, keys, now), log + keys)
  {
    if keys == [] {
      assert log + keys == log;
    } else {
      var init, last := keys[..|keys| - 1], keys[|keys| - 1];
      TouchedAllFrame(s, init, now);
      TouchedAllFollowsLastUse(s, log, init, now);
      TouchedAllCountsUses(s, log, init, now);
      TouchedCountsUses(TouchedAll(s, init, now), log + init, last, now);
      AppendInTwo(log, keys);
    }
  }

  /** An entry counts the accesses since its location last came in. */
  lemma {:induction false} AccessCountIsUsesWhileHeld(maxSize: int, ops: seq<Op>)
    ensures CountsUses(Run(maxSize, ops), AccessLog(ops))
  {
    if ops != [] {
      var before, op := ops[..|ops| - 1], ops[|ops| - 1];
      var s, log := Run(maxSize, before), AccessLog(before);
      AccessCountIsUsesWhileHeld(maxSize, before);
      ListIsLeastRecentlyUsedOrder(maxSize, before);
      RunConsistent(maxSize, before);
      match op
      case RecordOne(hit, now) => TouchedCountsUses(s, log, KeyOf(hit), now);
      case RecordMany(hits, now) => TouchedAllCountsUses(s, log, KeysOf(hits), now);
      case Query(hits, now) => TouchedAllCountsUses(Advanced(s), log, KeysOf(hits), now);
      case Decay(hits) => assert log + [] == log;
    }
  }

  lemma {:induction false} UsesOfAll(log: seq<Key>, n: nat, key: Key)
    requires |ByLastUse(log)| <= n
    ensures UsesWhileHeld(log, n, key) == multiset(log)[key]
    ensures key in ByLastUse(log) <==> key in log
  {
    if log != [] {
      var before, last := log[..|log| - 1], log[|log| - 1];
      assert log == before + [last];
      ByLastUseDistinct(before);
      WithoutDistinct(ByLastUse(before), last);
      UsesOfAll(before, n, key);
    }
  }

  /** As long as no more locations than fit were recorded, that is every access there was. */
  lemma AccessCountCountsAll(maxSize: int, ops: seq<Op>, key: Key)
    requires |ByLastUse(AccessLog(ops))| <= NewSession(maxSize).maxSize
    requires key in Run(maxSize, ops).entries
    ensures Run(maxSize, ops).entries[key].accessCount == multiset(AccessLog(ops))[key]
  {
    RunConsistent(maxSize, ops);
    AccessCountIsUsesWhileHeld(maxSize, ops);
    UsesOfAll(AccessLog(ops), NewSession(maxSize).maxSize, key);
  }

  lemma {:induction false} TouchedAllSetsTime(s: Session, keys: seq<Key>, now: int, key: Key)
    requires Consistent(s) && key in TouchedAll(s, keys, now).entries
    ensures key in keys ==> TouchedAll(s, keys, now).entries[key].lastAccessed == now
  {
    if keys != [] {
      var init, last := keys[..|keys| - 1], keys[|keys| - 1];
      assert keys == init + [last];
      if key != last {
        TouchedAllSetsTime(s, init, now, key);
      }
    }
  }

  /** An entry knows when its location was last recorded; DecayAllExcept does not change that. */
  lemma {:induction false} LastAccessedIsLastTime(maxSize: int, ops: seq<Op>, key: Key)
    requires key in Run(maxSize, ops).entries
    ensures Run(maxSize, ops).entries[key].lastAccessed == LastTime(ops, key)
  {
    if ops != [] {
      var before, op := ops[..|ops| - 1], ops[|ops| - 1];
      var s := Run(maxSize, before);
      RunConsistent(maxSize, before);
      StepSetsTime(s, op, key);
      if op.Decay? || key !in HitKeys(op) {
        LastAccessedIsLastTime(maxSize, before, key);
      }
    }
  }

  lemma StepSetsTime(s: Session, op: Op, key: Key)
    requires Consistent(s)
    requires key in Applied(s, op).entries
    ensures var e := Applied(s, op).entries[key];
      if !op.Decay? && key in HitKeys(op) then e.lastAccessed == op.now
      else key in s.entries && e.lastAccessed == s.entries[key].lastAccessed
  {
    match op
    case RecordOne(hit, now) =>
    case RecordMany(hits, now) =>
      TouchedAllFrame(s, KeysOf(hits), now);
      TouchedAllSetsTime(s, KeysOf(hits), now, key);
    case Query(hits, now) =>
      TouchedAllFrame(Advanced(s), KeysOf(hits), now);
      TouchedAllSetsTime(Advanced(s), KeysOf(hits), now, key);
    case Decay(hits) =>
  }

  // ---- Eviction takes a most decayed entry ----

  function Generations(s: Session): map<Key, int> {
    map k | k in s.entries :: s.entries[k].lastGeneration
  }

  ghost predicate Ascending(order: seq<Key>, rank: map<Key, int>) {
    && Elements(order) <= rank.Keys
    && forall i, j :: 0 <= i < j < |order| ==> rank[order[i]] <= rank[order[j]]
  }

  ghost predicate SortedByGeneration(s: Session) {
    && Ascending(s.order, Generations(s))
    && forall k :: k in s.entries ==> s.entries[k].lastGeneration <= s.generation
  }

  lemma {:induction false} AscendingWithout(order: seq<Key>, k: Key, rank: map<Key, int>)
    requires Ascending(order, rank)
    ensures Ascending(Without(order, k), rank)
  {
    if order != [] {
      assert order == [order[0]] + order[1..];
      AscendingWithout(order[1..], k, rank);
      var r := Without(order[1..], k);
      forall x | x in r ensures rank[order[0]] <= rank[x] {
        assert x in order[1..];
      }
    }
  }

  lemma AscendingSnoc(order: seq<Key>, k: Key, rank: map<Key, int>, newRank: map<Key, int>)
    requires Ascending(order, rank)
    requires k in newRank
    requires forall x :: x in order ==> x in newRank && newRank[x] == rank[x] <= newRank[k]
    ensures Ascending(order + [k], newRank)
  {
    forall i | 0 <= i < |order| ensures order[i] in rank {
      assert order[i] in Elements(order);
    }
  }

  function LastUse(log: seq<Key>, k: Key): (i: nat)
    requires k in log
    ensures i < |log| && log[i] == k && k !in log[i + 1..]
  {
    if log[|log| - 1] == k then |log| - 1
    else
      assert k in log[..|log| - 1] && log == log[..|log| - 1] + [log[|log| - 1]];
      LastUse(log[..|log| - 1], k)
  }

  function LastUses(log: seq<Key>): map<Key, int> {
    map k | k in log :: LastUse(log, k)
  }

  lemma {:induction false} ByLastUseElements(log: seq<Key>)
    ensures Elements(ByLastUse(log)) == Elements(log)
  {
    if log != [] {
      var before, last := log[..|log| - 1], log[|log| - 1];
      assert log == before + [last];
      ByLastUseElements(before);
      assert Elements(log) == Elements(before) + {last};
      assert Elements(ByLastUse(log)) == Elements(ByLastUse(before)) + {last};
    }
  }

  lemma LastUseSnoc(log: seq<Key>, last: Key, k: Key)
    requires k in log
    ensures k in log + [last]
    ensures LastUse(log + [last], k) == if k == last then |log| else LastUse(log, k)
  {
    var more := log + [last];
    assert more[|more| - 1] == last && more[..|more| - 1] == log;
  }

  /** The least-recently-used order holds the keys of the log, each behind those last used before it. */
  lemma {:induction false} ByLastUseAscends(log: seq<Key>)
    ensures Distinct(ByLastUse(log)) && Elements(ByLastUse(log)) == Elements(log)
    ensures Ascending(ByLastUse(log), LastUses(log))
  {
    ByLastUseDistinct(log);
    ByLastUseElements(log);
    if log != [] {
      var before, last := log[..|log| - 1], log[|log| - 1];
      assert log == before + [last];
      ByLastUseAscends(before);
      var rest := Without(ByLastUse(before), last);
      AscendingWithout(ByLastUse(before), last, LastUses(before));
      forall x | x in rest
        ensures x in LastUses(log) && x in LastUses(before)
        ensures LastUses(log)[x] == LastUses(before)[x] <= LastUses(log)[last]
      {
        assert x in Elements(ByLastUse(before));
        LastUseSnoc(before, last, x);
      }
      AscendingSnoc(rest, last, LastUses(before), LastUses(log));
    }
  }

  /** The locations recorded after the last use of this one. */
  function UsedAfter(log: seq<Key>, k: Key): set<Key>
    requires k in log
  {
    Elements(log[LastUse(log, k) + 1..])
  }

  lemma {:induction false} SplitAtLastUse(log: seq<Key>, k: Key) returns (front: seq<Key>, back: seq<Key>)
    requires k in log
    ensures ByLastUse(log) == front + [k] + back && Elements(back) == UsedAfter(log, k)
  {
    var before, last := log[..|log| - 1], log[|log| - 1];
    assert log == before + [last];
    if last == k {
      front, back := Without(ByLastUse(before), k), [];
    } else {
      var p, q := SplitAtLastUse(before, k);
      WithoutConcat(p + [k], q, last);
      WithoutConcat(p, [k], last);
      WithoutAbsent([k], last);
      front, back := Without(p, last), Without(q, last) + [last];
      ConcatAssociative(front + [k], Without(q, last), [last]);
      UsedAfterSnoc(before, last, k);
      assert Elements(back) == Elements(q) + {last};
    }
  }

  lemma UsedAfterSnoc(log: seq<Key>, last: Key, k: Key)
    requires k in log && last != k
    ensures k in log + [last] && UsedAfter(log + [last], k) == UsedAfter(log, k) + {last}
  {
    LastUseSnoc(log, last, k);
    var i := LastUse(log, k);
    assert (log + [last])[i + 1..] == log[i + 1..] + [last];
  }

  lemma LastNSplit(front: seq<Key>, k: Key, back: seq<Key>, n: nat)
    requires Distinct(front + [k] + back)
    ensures k in LastN(front + [k] + back, n) <==> |back| < n
    ensures Distinct(back)
  {
    var init := front + [k];
    DistinctConcat(init, back);
    assert init[|front|] == k;
    if |back| < n {
      LastNHas(init + back, |front|, n);
    } else {
      LastNWithin(init, back, n, k);
    }
  }

  lemma LastNHas(s: seq<Key>, i: nat, n: nat)
    requires i < |s| && |s| - i <= n
    ensures s[i] in LastN(s, n)
  {
    if |s| > n {
      assert LastN(s, n)[i - (|s| - n)] == s[i];
    }
  }

  lemma LastNWithin(a: seq<Key>, b: seq<Key>, n: nat, k: Key)
    requires n <= |b| && k !in b
    ensures k !in LastN(a + b, n)
  {
    var s := a + b;
    assert forall i :: |s| - n <= i < |s| ==> s[i] in b;
    assert |s| <= n ==> a == [] && s == b;
  }

  /** A location is held exactly when fewer than `maxSize` others were recorded since its last use. */
  lemma HeldExactly(maxSize: int, ops: seq<Op>, key: Key)
    ensures var log := AccessLog(ops);
      key in Run(maxSize, ops).entries <==> key in log && |UsedAfter(log, key)| < NewSession(maxSize).maxSize
  {
    var log, n := AccessLog(ops), NewSession(maxSize).maxSize;
    RunConsistent(maxSize, ops);
    ListIsLeastRecentlyUsedOrder(maxSize, ops);
    ByLastUseAscends(log);
    assert key in Run(maxSize, ops).entries <==> key in Elements(LastN(ByLastUse(log), n));
    assert key in log <==> key in Elements(log);
    if key in log {
      var front, back := SplitAtLastUse(log, key);
      LastNSplit(front, key, back, n);
      DistinctCardinality(back);
    } else {
      assert forall x :: x in LastN(ByLastUse(log), n) ==> x in Elements(ByLastUse(log));
    }
  }

  lemma RefreshSorted(s: Session, key: Key, now: int)
    requires Consistent(s) && SortedByGeneration(s) && key in s.entries
    ensures SortedByGeneration(Touched(s, key, now))
  {
    AscendingWithout(s.order, key, Generations(s));
    var r, t := Without(s.order, key), Touched(s, key, now);
    forall x | x in r
      ensures x in Generations(t) && Generations(t)[x] == Generations(s)[x] <= s.generation
    {
      assert x in Elements(s.order);
    }
    AscendingSnoc(r, key, Generations(s), Generations(t));
  }

  lemma InsertSorted(s: Session, key: Key, now: int)
    requires Consistent(s) && SortedByGeneration(s) && key !in s.entries
    ensures SortedByGeneration(Touched(s, key, now))
  {
    EvictedConsistent(s);
    var e, t := Evicted(s), Touched(s, key, now);
    forall x | x in e.order
      ensures x in e.entries && x in Generations(t)
      ensures Generations(t)[x] == Generations(e)[x] == Generations(s)[x] <= s.generation
    {
      assert x in Elements(e.order);
    }
    assert Ascending(e.order, Generations(e)) by {
      assert e.order == s.order || e.order == s.order[1..];
    }
    AscendingSnoc(e.order, key, Generations(e), Generations(t));
  }

  lemma {:induction false} TouchedSorted(s: Session, key: Key, now: int)
    requires Consistent(s) && SortedByGeneration(s)
    ensures Consistent(Touched(s, key, now)) && SortedByGeneration(Touched(s, key, now))
  {
    TouchedConsistent(s, key, now);
    if key in s.entries {
      RefreshSorted(s, key, now);
    } else {
      InsertSorted(s, key, now);
    }
  }

  lemma {:induction false} TouchedAllSorted(s: Session, keys: seq<Key>, now: int)
    requires Consistent(s) && SortedByGeneration(s)
    ensures Consistent(TouchedAll(s, keys, now)) && SortedByGeneration(TouchedAll(s, keys, now))
  {
    if keys != [] {
      TouchedAllSorted(s, keys[..|keys| - 1], now);
      TouchedSorted(TouchedAll(s, keys[..|keys| - 1], now), keys[|keys| - 1], now);
    }
  }

  lemma {:induction false} RecordingKeepsSorted(maxSize: int, ops: seq<Op>)
    requires forall op :: op in ops ==> !op.Decay?
    ensures Consistent(Run(maxSize, ops)) && SortedByGeneration(Run(maxSize, ops))
  {
    if ops != [] {
      var before, op := ops[..|ops| - 1], ops[|ops| - 1];
      var s := Run(maxSize, before);
      RecordingKeepsSorted(maxSize, before);
      assert op in ops;
      match op
      case RecordOne(hit, now) => TouchedSorted(s, KeyOf(hit), now);
      case RecordMany(hits, now) => TouchedAllSorted(s, KeysOf(hits), now);
      case Query(hits, now) => TouchedAllSorted(Advanced(s), KeysOf(hits), now);
    }
  }

  /** Without DecayAllExcept, the entry at the front, the next to go, has missed the most queries. */
  lemma EvictionTakesMostDecayed(maxSize: int, ops: seq<Op>, key: Key)
    requires forall op :: op in ops ==> !op.Decay?
    requires key in Run(maxSize, ops).entries
    ensures var s := Run(maxSize, ops);
      s.order != [] && MissedQueries(ops, s.order[0]) >= MissedQueries(ops, key)
  {
    RecordingKeepsSorted(maxSize, ops);
    var s := Run(maxSize, ops);
    assert key in Elements(s.order);
    assert s.order[0] in Elements(s.order);
    assert Generations(s)[s.order[0]] <= Generations(s)[key];
    LazyDecayCountsMissedQueries(maxSize, ops, key);
    LazyDecayCountsMissedQueries(maxSize, ops, s.order[0]);
  }

  /** The hits that are held form the back end of the list. */
  ghost predicate HitsAtBack(s: Session, keys: seq<Key>) {
    forall i, j :: 0 <= i < j < |s.order| && s.order[i] in keys ==> s.order[j] in keys
  }

  /** DecayAllExcept moves no entry, so it keeps the order right exactly when the hits are at the back. */
  lemma DecayKeepsSortedExactly(s: Session, hits: seq<SessionHit>)
    requires Consistent(s) && SortedByGeneration(s)
    ensures var t := Applied(s, Decay(hits));
      Consistent(t) && (SortedByGeneration(t) <==> HitsAtBack(s, KeysOf(hits)))
  {
    var keys, t := KeysOf(hits), Applied(s, Decay(hits));
    ExemptedConsistent(Advanced(s), keys);
    forall k | k in s.order
      ensures k in s.entries && k in t.entries
      ensures t.entries[k].lastGeneration ==
              if k in keys then s.generation + 1 else s.entries[k].lastGeneration
      ensures k in keys <==> t.entries[k].lastGeneration > s.generation
    {
      assert k in Elements(s.order);
    }
  }

  lemma RunSnoc(maxSize: int, ops: seq<Op>, op: Op)
    ensures Run(maxSize, ops + [op]) == Applied(Run(maxSize, ops), op)
    ensures forall key :: MissedQueries(ops + [op], key) ==
              (if key in HitKeys(op) then 0
               else MissedQueries(ops, key) + if AdvancesQueryCount(op) then 1 else 0)
  {
    assert (ops + [op])[..|ops|] == ops;
  }

  /** A history with DecayAllExcept after which the next eviction takes the less decayed of two entries. */
  lemma DecayCanMisorder()
    ensures var a, b := SessionHit("a", 1), SessionHit("b", 1);
      var ops := [] + [RecordOne(a, 0)] + [RecordOne(b, 0)] + [Decay([a])];
      var s := Run(2, ops);
      && s.order == [KeyOf(a), KeyOf(b)]
      && MissedQueries(ops, s.order[0]) < MissedQueries(ops, s.order[1])
  {
    var a, b := SessionHit("a", 1), SessionHit("b", 1);
    assert KeyOf(a).text[0] != KeyOf(b).text[0];
    RunSnoc(2, [], RecordOne(a, 0));
    RunSnoc(2, [] + [RecordOne(a, 0)], RecordOne(b, 0));
    RunSnoc(2, [] + [RecordOne(a, 0)] + [RecordOne(b, 0)], Decay([a]));
    assert KeysOf([a]) == [KeyOf(a)];
  }
}
