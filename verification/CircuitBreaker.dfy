/**
 The breaker in front of the embedding service (internal/vector/circuit_breaker.go).

 `Breaker` is the value of one breaker; the `After...` functions are its transitions.
 `CircuitBreaker` is the mutable object, each of whose methods is proved against them.
 Runs are sequences of events, so every theorem here is about all histories.
 Durations and clock readings are whole seconds; a clock reading is a parameter.
 */
module CircuitBreaking {
  const BASE_COOLDOWN: nat := 300
  const BACKOFF_MAX: nat := 3600
  const FAIL_THRESHOLD: nat := 3

  datatype CircuitState = Closed | Open | HalfOpen | Disabled

  datatype Breaker = Breaker(
    state: CircuitState,
    consecutiveFail: nat,
    openCycles: nat,
    lastOpenTime: int,
    currentCooldown: nat,
    halfOpenProbing: bool
  )

  const INITIAL := Breaker(Closed, 0, 0, 0, BASE_COOLDOWN, false)

  function Min(a: int, b: int): int {
    if a <= b then a else b
  }

  function Pow2(n: nat): (p: nat)
    ensures p >= 1
  {
    if n == 0 then 1 else 2 * Pow2(n - 1)
  }

  /** Whether a request asked for at `now` may proceed. */
  predicate Grants(b: Breaker, now: int) {
    match b.state
    case Closed => true
    case Open => now - b.lastOpenTime > b.currentCooldown
    case HalfOpen => !b.halfOpenProbing
    case Disabled => false
  }

  function AfterAllow(b: Breaker, now: int): Breaker {
    if b.state == Closed || !Grants(b, now) then b
    else b.(state := HalfOpen, halfOpenProbing := true)
  }

  function AfterSuccess(b: Breaker): Breaker {
    Breaker(Closed, 0, 0, b.lastOpenTime, BASE_COOLDOWN, false)
  }

  function Opened(b: Breaker, now: int): Breaker {
    b.(state := Open, openCycles := b.openCycles + 1, lastOpenTime := now,
       currentCooldown := Min(b.currentCooldown * 2, BACKOFF_MAX), halfOpenProbing := false)
  }

  function AfterFailure(b: Breaker, now: int): Breaker {
    if b.state == HalfOpen then Opened(b, now)
    else if b.consecutiveFail + 1 >= FAIL_THRESHOLD then Opened(b.(consecutiveFail := 0), now)
    else b.(consecutiveFail := b.consecutiveFail + 1, halfOpenProbing := false)
  }

  class CircuitBreaker {
    var state: CircuitState
    var consecutiveFail: nat
    var openCycles: nat
    var lastOpenTime: int
    var currentCooldown: nat
    var halfOpenProbing: bool

    constructor ()
      ensures View() == INITIAL
    {
      state := Closed;
      consecutiveFail, openCycles := 0, 0;
      lastOpenTime := 0;
      currentCooldown := BASE_COOLDOWN;
      halfOpenProbing := false;
    }

    function View(): Breaker
      reads this
    {
      Breaker(state, consecutiveFail, openCycles, lastOpenTime, currentCooldown, halfOpenProbing)
    }

    method Allow(now: int) returns (ok: bool)
      modifies this
      ensures ok == Grants(old(View()), now)
      ensures View() == AfterAllow(old(View()), now)
    {
      match state
      case Closed =>
        return true;
      case Open =>
        if now - lastOpenTime > currentCooldown {
          state := HalfOpen;
          halfOpenProbing := true;
          return true;
        }
        return false;
      case HalfOpen =>
        if halfOpenProbing {
          return false;
        }
        halfOpenProbing := true;
        return true;
      case Disabled =>
        return false;
    }

    method RecordSuccess()
      modifies this
      ensures View() == AfterSuccess(old(View()))
    {
      consecutiveFail := 0;
      openCycles := 0;
      currentCooldown := BASE_COOLDOWN;
      halfOpenProbing := false;
      state := Closed;
    }

    method RecordFailure(now: int)
      modifies this
      ensures View() == AfterFailure(old(View()), now)
    {
      halfOpenProbing := false;
      if state == HalfOpen {
        openCycles := openCycles + 1;
        state := Open;
        lastOpenTime := now;
        currentCooldown := Min(currentCooldown * 2, BACKOFF_MAX);
        return;
      }
      consecutiveFail := consecutiveFail + 1;
      if consecutiveFail >= FAIL_THRESHOLD {
        openCycles := openCycles + 1;
        state := Open;
        lastOpenTime := now;
        consecutiveFail := 0;
        currentCooldown := Min(currentCooldown * 2, BACKOFF_MAX);
      }
    }

    method Reset()
      modifies this
      ensures View() == AfterSuccess(old(View()))
    {
      state := Closed;
      consecutiveFail := 0;
      openCycles := 0;
      currentCooldown := BASE_COOLDOWN;
      halfOpenProbing := false;
    }
  }

  // ---- Histories ----

  datatype Event = Allow(now: int) | Success | Failure(now: int) | Reset

  function Step(b: Breaker, e: Event): Breaker {
    match e
    case Allow(now) => AfterAllow(b, now)
    case Success => AfterSuccess(b)
    case Failure(now) => AfterFailure(b, now)
    case Reset => AfterSuccess(b)
  }

  /** The breaker after a history, started from NewCircuitBreaker. */
  function Run(es: seq<Event>): Breaker {
    if es == [] then INITIAL else Step(Run(es[..|es| - 1]), es[|es| - 1])
  }

  ghost predicate Invariant(b: Breaker) {
    && b.state != Disabled
    && (b.state == HalfOpen <==> b.halfOpenProbing)
    && b.consecutiveFail < FAIL_THRESHOLD
    && (b.state == Closed <==> b.openCycles == 0)
    && b.currentCooldown == Min(BASE_COOLDOWN * Pow2(b.openCycles), BACKOFF_MAX)
  }

  lemma {:induction false} ReachableInvariant(es: seq<Event>)
    ensures Invariant(Run(es))
  {
    if es != [] {
      ReachableInvariant(es[..|es| - 1]);
    }
  }

  /** Failures recorded since the last success or reset, read off the history alone. */
  function FailureStreak(es: seq<Event>): nat {
    if es == [] then 0
    else
      var rest := es[..|es| - 1];
      match es[|es| - 1]
      case Allow(_) => FailureStreak(rest)
      case Failure(_) => FailureStreak(rest) + 1
      case _ => 0
  }

  lemma {:induction false} StreakDecidesState(es: seq<Event>)
    ensures Run(es).state == Closed <==> FailureStreak(es) < FAIL_THRESHOLD
    ensures Run(es).state == Closed ==> Run(es).consecutiveFail == FailureStreak(es)
  {
    if es != [] {
      StreakDecidesState(es[..|es| - 1]);
      ReachableInvariant(es[..|es| - 1]);
    }
  }

  predicate IsRecord(e: Event) {
    !e.Allow?
  }

  lemma {:induction false} RunAppend(es: seq<Event>, e: Event)
    ensures Run(es + [e]) == Step(Run(es), e)
  {
    assert (es + [e])[..|es|] == es;
  }

  /**
   A half-open breaker answers no to every request, at any time, until some outcome is recorded.
   A caller that gets a permanent error records nothing, so its probe keeps the breaker here.
   */
  lemma {:induction false} HalfOpenRefusesUntilRecord(es: seq<Event>, more: seq<Event>, now: int)
    requires Run(es).state == HalfOpen
    requires forall e :: e in more ==> !IsRecord(e)
    ensures Run(es + more) == Run(es)
    ensures !Grants(Run(es + more), now)
  {
    ReachableInvariant(es);
    if more == [] {
      assert es + more == es;
    } else {
      var init, last := more[..|more| - 1], more[|more| - 1];
      HalfOpenRefusesUntilRecord(es, init, now);
      assert es + more == es + init + [last];
      RunAppend(es + init, last);
      assert last in more;
    }
  }

  /** Request number `i` of a history was let through. */
  predicate GrantedAt(es: seq<Event>, i: nat)
    requires i < |es|
  {
    es[i].Allow? && Grants(Run(es[..i]), es[i].now)
  }

  /**
   Probes never overlap: between a grant made by a breaker that is not closed and any later grant,
   some outcome or a reset was recorded.
   */
  lemma {:induction false} ProbesAreSeparated(es: seq<Event>, i: nat, j: nat)
    requires i < j < |es|
    requires GrantedAt(es, i) && GrantedAt(es, j)
    requires Run(es[..i]).state != Closed
    ensures exists k :: i < k < j && IsRecord(es[k])
  {
    if forall k :: i < k < j ==> !IsRecord(es[k]) {
      ReachableInvariant(es[..i]);
      assert es[..i + 1] == es[..i] + [es[i]];
      RunAppend(es[..i], es[i]);
      assert Run(es[..i + 1]).state == HalfOpen;
      var more := es[i + 1..j];
      assert es[..j] == es[..i + 1] + more;
      HalfOpenRefusesUntilRecord(es[..i + 1], more, es[j].now);
      assert false;
    }
  }

  // ---- Openings, read off the history ----

  /** How long an open breaker waits after this many openings in a row. */
  function CooldownAfter(openings: nat): nat {
    Min(BASE_COOLDOWN * Pow2(openings), BACKOFF_MAX)
  }

  /** The times at which the breaker opened since the last success or reset. */
  function Openings(es: seq<Event>): seq<int>
    decreases |es|, 0
  {
    if es == [] then []
    else
      var rest := es[..|es| - 1];
      match es[|es| - 1]
      case Allow(_) => Openings(rest)
      case Failure(now) => if OpensNext(rest) then Openings(rest) + [now] else Openings(rest)
      case _ => []
  }

  /** A failure opens the breaker if it is that of a probe, or the third one counted. */
  predicate OpensNext(es: seq<Event>)
    decreases |es|, 1
  {
    Probing(es) || Counted(es) + 1 >= FAIL_THRESHOLD
  }

  /** A probe was let through after the last opening's cooldown, and nothing has been recorded since. */
  predicate Probing(es: seq<Event>)
    decreases |es|, 0
  {
    if es == [] then false
    else
      var rest := es[..|es| - 1];
      match es[|es| - 1]
      case Allow(now) =>
        || Probing(rest)
        || (Openings(rest) != [] && now - Latest(Openings(rest)) > CooldownAfter(|Openings(rest)|))
      case _ => false
  }

  /** Failures towards the threshold: those of probes are not counted. */
  function Counted(es: seq<Event>): nat
    decreases |es|, 0
  {
    if es == [] then 0
    else
      var rest := es[..|es| - 1];
      match es[|es| - 1]
      case Allow(_) => Counted(rest)
      case Failure(_) =>
        if Probing(rest) then Counted(rest) else if OpensNext(rest) then 0 else Counted(rest) + 1
      case _ => 0
  }

  function Latest(times: seq<int>): int
    requires times != []
  {
    times[|times| - 1]
  }

  /** The breaker's fields say what its history says: how often and when it has opened, and whether a probe is out. */
  ghost predicate Reflects(b: Breaker, es: seq<Event>) {
    && b.openCycles == |Openings(es)| && b.consecutiveFail == Counted(es)
    && (b.state == Closed <==> Openings(es) == [])
    && (b.state == HalfOpen <==> Probing(es))
    && (Openings(es) != [] ==> b.lastOpenTime == Latest(Openings(es)))
  }

  lemma {:induction false} RunReflectsHistory(es: seq<Event>)
    ensures Reflects(Run(es), es)
  {
    if es != [] {
      RunReflectsHistory(es[..|es| - 1]);
      ReachableInvariant(es[..|es| - 1]);
    }
  }

  /** Every opening is a failure of the history, and there is one just when the streak of failures is long. */
  lemma {:induction false} OpeningsAreFailures(es: seq<Event>)
    ensures forall t :: t in Openings(es) ==> Failure(t) in es
    ensures Openings(es) == [] <==> FailureStreak(es) < FAIL_THRESHOLD
  {
    if es != [] {
      OpeningsAreFailures(es[..|es| - 1]);
      assert es == es[..|es| - 1] + [es[|es| - 1]];
    }
    RunReflectsHistory(es);
    StreakDecidesState(es);
  }

  /**
   A request goes through exactly when the streak of failures is short, or no probe is out and the cooldown,
   doubled at each opening and capped, has run out since the failure that last opened the breaker.
   */
  lemma GrantsExactly(es: seq<Event>, now: int)
    ensures FailureStreak(es) >= FAIL_THRESHOLD ==> Openings(es) != []
    ensures Grants(Run(es), now) <==>
      || FailureStreak(es) < FAIL_THRESHOLD
      || (!Probing(es) && now - Latest(Openings(es)) > CooldownAfter(|Openings(es)|))
  {
    ReachableInvariant(es);
    StreakDecidesState(es);
    RunReflectsHistory(es);
  }

  /** Three failures: the first opening waits twice the base cooldown, not the base cooldown, from the third on. */
  lemma FirstOpeningWaitsDouble(t0: int, t1: int, t2: int, now: int)
    ensures Run([Failure(t0), Failure(t1), Failure(t2)]).state == Open
    ensures Run([Failure(t0), Failure(t1), Failure(t2)]).currentCooldown == 2 * BASE_COOLDOWN
    ensures Grants(Run([Failure(t0), Failure(t1), Failure(t2)]), now) <==> now - t2 > 600
  {
    var es := [Failure(t0), Failure(t1), Failure(t2)];
    RunAppend([], es[0]);
    RunAppend([es[0]], es[1]);
    RunAppend([es[0], es[1]], es[2]);
    assert [] + [es[0]] == [es[0]];
    assert [es[0]] + [es[1]] == [es[0], es[1]];
    assert [es[0], es[1]] + [es[2]] == es;
  }

  /** If the probe after that fails, the wait is doubled again, from its failure on. */
  lemma FailedProbeWaitsLonger(t: int, probe: int, failed: int, now: int)
    requires probe - t > 600
    ensures var es := [Failure(t), Failure(t), Failure(t), Allow(probe), Failure(failed)];
      Grants(Run(es), now) <==> now - failed > 1200
  {
    var three := [Failure(t), Failure(t), Failure(t)];
    FirstOpeningWaitsDouble(t, t, t, probe);
    RunAppend(three, Allow(probe));
    RunAppend(three + [Allow(probe)], Failure(failed));
    assert three + [Allow(probe)] + [Failure(failed)]
      == [Failure(t), Failure(t), Failure(t), Allow(probe), Failure(failed)];
  }
}
