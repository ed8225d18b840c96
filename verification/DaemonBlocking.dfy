/**
 What blocks and what wakes in the writer's protocol (internal/daemon/writer.go): when a drain that waits for
 producers can still close, and when a sleeping Submit has somebody to wake it.
 */
module DaemonBlocking {
  import opened Options
  import opened DaemonWriter

  // ---- When the drain can close ----

  /**
   The drain waits for producers while nobody takes from the queue. It can only go wrong in these two ways:
   a registered producer's call sleeps, or more of them are about to send than the queue has room for.
   */
  predicate Stuck(s: State) {
    OfProducers(s, Parked(s) + s.waiting) != {} || |OfProducers(s, s.woken)| > s.cap - |s.queue|
  }

  lemma AttemptStuck(s: State, c: Call)
    requires s.phase == AwaitingProducers && !s.closed && LockFree(s) && |s.queue| <= s.cap
    requires OfProducers(s, s.waiting) != {}
              || |OfProducers(s, s.woken)| + (if OfProducers(s, {c}) != {} then 1 else 0) > s.cap - |s.queue|
    ensures Stuck(Attempt(s, c)) && Attempt(s, c).phase == AwaitingProducers
  {
    var t := Attempt(s, c);
    assert OfProducers(t, t.woken) == OfProducers(s, s.woken);
    assert OfProducers(s, s.waiting) <= OfProducers(t, Parked(t) + t.waiting);
    if OfProducers(s, s.waiting) != {} {
      var x :| x in OfProducers(s, s.waiting);
      assert x in OfProducers(t, Parked(t) + t.waiting);
    } else if |s.queue| >= s.cap && OfProducers(s, {c}) != {} {
      assert c in OfProducers(t, Parked(t) + t.waiting);
    }
  }

  lemma OneWokenLess(s: State, c: Call)
    requires c in s.woken
    ensures var t := s.(woken := s.woken - {c});
      |OfProducers(s, s.woken)| == |OfProducers(t, t.woken)| + (if OfProducers(t, {c}) != {} then 1 else 0)
  {
    var t := s.(woken := s.woken - {c});
    var rest := OfProducers(t, t.woken);
    assert c !in rest;
    if c in s.owner && s.owner[c] in s.producers {
      assert c in OfProducers(t, {c});
      assert OfProducers(s, s.woken) == rest + {c};
    } else {
      assert OfProducers(t, {c}) == {};
      assert OfProducers(s, s.woken) == rest;
    }
  }

  lemma ResumeStuck(s: State, c: Call)
    requires Invariant(s) && s.phase == AwaitingProducers && Stuck(s) && LockFree(s) && c in s.woken
    ensures Stuck(Apply(s, Resume(c))) && Apply(s, Resume(c)).phase == AwaitingProducers
  {
    var t := s.(woken := s.woken - {c});
    assert OfProducers(s, s.waiting) == OfProducers(s, Parked(s) + s.waiting) == OfProducers(t, t.waiting);
    OneWokenLess(s, c);
    AttemptStuck(t, c);
  }

  lemma SubmitStuck(s: State, c: Call, from: Option<Producer>)
    requires Invariant(s) && s.phase == AwaitingProducers && Stuck(s) && Enabled(s, Submit(c, from))
    ensures Stuck(Apply(s, Submit(c, from))) && Apply(s, Submit(c, from)).phase == AwaitingProducers
  {
    var t := if from.Some? then s.(owner := s.owner[c := from.value]) else s;
    assert OfProducers(t, t.waiting) == OfProducers(s, Parked(s) + s.waiting);
    assert OfProducers(t, t.woken) == OfProducers(s, s.woken);
    AttemptStuck(t, c);
  }

  lemma NoProducersNotStuck(s: State)
    ensures s.producers == {} && |s.queue| <= s.cap ==> !Stuck(s)
  {
    if s.producers == {} {
      assert OfProducers(s, Parked(s) + s.waiting) == {} && OfProducers(s, s.woken) == {};
    }
  }

  lemma StuckStep(s: State, a: Action)
    requires Invariant(s) && s.phase == AwaitingProducers && Stuck(s) && Enabled(s, a)
    ensures Stuck(Apply(s, a)) && Apply(s, a).phase == AwaitingProducers
  {
    NoProducersNotStuck(s);
    var t := Apply(s, a);
    match a
    case Submit(c, from) => SubmitStuck(s, c, from);
    case Resume(c) => ResumeStuck(s, c);
    case Park =>
      assert Parked(t) + t.waiting == Parked(s) + s.waiting;
    case RemoveProducer(p) =>
      assert OfProducers(t, Parked(t) + t.waiting) == OfProducers(s, Parked(s) + s.waiting);
      assert OfProducers(t, t.woken) == OfProducers(s, s.woken);
    case AddProducer(p) =>
  }

  /** A stuck drain stays stuck, whoever calls what afterwards. */
  lemma {:induction false} StuckForever(s: State, run: seq<Action>)
    requires Invariant(s) && s.phase == AwaitingProducers && Stuck(s) && CanRun(s, run)
    ensures Stuck(After(s, run)) && After(s, run).phase == AwaitingProducers && !After(s, run).closed
    decreases run
  {
    if run != [] {
      StuckStep(s, run[0]);
      StepKeeps(s, run[0]);
      StuckForever(Apply(s, run[0]), run[1..]);
    }
  }

  /** What to do next so that a drain that is not stuck can close. */
  lemma {:induction false} ClosingStep(s: State) returns (a: Action)
    requires Invariant(s) && s.phase == AwaitingProducers && !Stuck(s)
    ensures Enabled(s, a)
    ensures var t := Apply(s, a);
      t.closed || (t.phase == AwaitingProducers && !Stuck(t) && Remaining(t) < Remaining(s))
  {
    var ready := OfProducers(s, s.woken);
    if s.parking.Some? {
      a := Park;
      var t := Apply(s, a);
      assert Parked(t) + t.waiting == Parked(s) + s.waiting;
      assert OfProducers(t, t.woken) == ready;
    } else if c :| c in ready {
      a := Resume(c);
      ResumeCloses(s, c);
    } else if p :| p in s.producers {
      a := RemoveProducer(p);
      LeaveCloses(s, p);
    } else {
      a := Close;
      assert s.producers == {};
    }
  }

  function Remaining(s: State): nat {
    |Parked(s)| + |OfProducers(s, s.woken)| + |s.producers|
  }

  lemma ResumeCloses(s: State, c: Call)
    requires Invariant(s) && s.phase == AwaitingProducers && !Stuck(s) && LockFree(s) && c in OfProducers(s, s.woken)
    ensures var t := Apply(s, Resume(c)); t.phase == AwaitingProducers && !Stuck(t) && Remaining(t) < Remaining(s)
  {
    var t := Apply(s, Resume(c));
    OneWokenLess(s, c);
    assert OfProducers(t, t.woken) == OfProducers(s, s.woken) - {c};
    assert OfProducers(t, Parked(t) + t.waiting) == OfProducers(s, Parked(s) + s.waiting);
  }

  lemma LeaveCloses(s: State, p: Producer)
    requires Invariant(s) && s.phase == AwaitingProducers && !Stuck(s) && LockFree(s) && p in s.producers
    requires forall c :: c !in OfProducers(s, s.woken)
    ensures Enabled(s, RemoveProducer(p))
    ensures var t := Apply(s, RemoveProducer(p));
      t.phase == AwaitingProducers && !Stuck(t) && Remaining(t) < Remaining(s)
  {
    forall c | c in Pending(s) && c in s.owner ensures s.owner[c] != p {
      assert c !in OfProducers(s, s.woken) && c !in OfProducers(s, Parked(s) + s.waiting);
    }
    var t := Apply(s, RemoveProducer(p));
    assert OfProducers(t, t.woken) == {} && OfProducers(t, Parked(t) + t.waiting) == {};
    assert OfProducers(s, s.woken) == {};
  }

  lemma {:induction false} CanClose(s: State) returns (run: seq<Action>)
    requires Invariant(s) && s.phase == AwaitingProducers && !Stuck(s)
    ensures CanRun(s, run) && After(s, run).closed
    decreases Remaining(s)
  {
    var a := ClosingStep(s);
    var t := Apply(s, a);
    if t.closed {
      run := [a];
      assert run[1..] == [];
    } else {
      StepKeeps(s, a);
      var rest := CanClose(t);
      run := [a] + rest;
      assert run[1..] == rest;
    }
  }

  /** The drain can still reach its close, by some interleaving, exactly when it is not stuck. */
  lemma DrainClosesExactly(s: State)
    requires Invariant(s) && s.phase == AwaitingProducers
    ensures (exists run :: CanRun(s, run) && After(s, run).closed) <==> !Stuck(s)
  {
    if Stuck(s) {
      forall run | CanRun(s, run) ensures !After(s, run).closed {
        StuckForever(s, run);
      }
    } else {
      var run := CanClose(s);
    }
  }

  /** A full channel of one, and a second Submit holding the lock about to wait. */
  lemma AboutToWait(from: Option<Producer>, run: seq<Action>, s: State) returns (full: seq<Action>)
    requires CanRun(Initial(1), run) && After(Initial(1), run) == s
    requires s == State(1, Running, [], false, false, s.producers, None, {}, {}, map[], [], {}, [])
    requires from.Some? ==> from.value in s.producers
    ensures CanRun(Initial(1), full)
    ensures var owner := if from.Some? then map[0 := from.value, 1 := from.value] else map[];
      After(Initial(1), full) == State(1, Running, [0], false, false, s.producers, Some(1), {}, {}, owner, [0], {}, [])
  {
    var one := if from.Some? then map[0 := from.value] else map[];
    var owner := if from.Some? then map[0 := from.value, 1 := from.value] else map[];
    var s1 := State(1, Running, [0], false, false, s.producers, None, {}, {}, one, [0], {}, []);
    Reaches(Initial(1), run, Submit(0, from), s1);
    var s2 := s1.(owner := owner, parking := Some(1));
    Reaches(Initial(1), run + [Submit(0, from)], Submit(1, from), s2);
    full := run + [Submit(0, from)] + [Submit(1, from)];
  }

  lemma Started() returns (run: seq<Action>)
    ensures CanRun(Initial(1), run)
    ensures After(Initial(1), run) == Initial(1).(phase := Running)
  {
    run := [] + [Start];
    Reaches(Initial(1), [], Start, Initial(1).(phase := Running));
  }

  /** Stuck drains are reached: a producer sleeps on a full queue while the writer goes into its drain. */
  lemma StuckIsReachable() returns (run: seq<Action>)
    ensures CanRun(Initial(1), run)
    ensures After(Initial(1), run).phase == AwaitingProducers && Stuck(After(Initial(1), run))
  {
    var start := Started();
    var s := Initial(1).(phase := Running, producers := {0});
    Reaches(Initial(1), start, AddProducer(0), s);
    var full := AboutToWait(Some(0), start + [AddProducer(0)], s);
    Reaches(Initial(1), full, Park, Apply(After(Initial(1), full), Park));
    Reaches(Initial(1), full + [Park], BeginDrain, Apply(After(Initial(1), full + [Park]), BeginDrain));
    run := full + [Park] + [BeginDrain];
    var t := After(Initial(1), run);
    assert 1 in OfProducers(t, Parked(t) + t.waiting);
  }

  // ---- Waking up ----

  /** No Signal falls between a failed send and the sleep that follows it. */
  predicate NoSignalMissed(s: State, run: seq<Action>)
    requires CanRun(s, run)
    decreases run
  {
    run == [] || (!(run[0].FinishAndSignal? && s.parking.Some?) && NoSignalMissed(Apply(s, run[0]), run[1..]))
  }

  /** Calls that sleep or are about to. */
  function Sleepers(s: State): set<Call> {
    Parked(s) + s.waiting
  }

  /** Somebody is there to move things on: a job queued or being processed, or a call already woken. */
  predicate Attended(s: State) {
    Sleepers(s) != {} && !s.draining ==> s.queue != [] || s.phase.Processing? || s.woken != {}
  }

  lemma AttendedStep(s: State, a: Action)
    requires Invariant(s) && s.cap > 0 && Attended(s) && Enabled(s, a) && !(a.FinishAndSignal? && s.parking.Some?)
    ensures Attended(Apply(s, a))
  {
    var t := Apply(s, a);
    if a.FinishAndSignal? && a.wake.Some? {
      assert a.wake.value in t.woken;
    }
    if a.Park? {
      assert s.parking.value in Sleepers(s);
    }
  }

  /** Without a missed Signal no Submit sleeps unattended before the drain. */
  lemma {:induction false} SleepersAreAttended(s: State, run: seq<Action>)
    requires Invariant(s) && s.cap > 0 && Attended(s) && CanRun(s, run) && NoSignalMissed(s, run)
    ensures Attended(After(s, run))
    decreases run
  {
    if run != [] {
      AttendedStep(s, run[0]);
      StepKeeps(s, run[0]);
      SleepersAreAttended(Apply(s, run[0]), run[1..]);
    }
  }

  /**
   With one it can happen: Signal is sent without the lock, so a call can go to sleep on a queue that is
   already empty. Only another Submit, or the drain, gets it up again.
   */
  lemma MissedSignal() returns (run: seq<Action>)
    ensures CanRun(Initial(1), run)
    ensures var s := After(Initial(1), run);
      s.phase == Running && s.queue == [] && s.waiting == {1} && !Attended(s)
  {
    var start := Started();
    var full := AboutToWait(None, start, Initial(1).(phase := Running));
    var f := After(Initial(1), full);
    Reaches(Initial(1), full, Receive, f.(phase := Processing(0), queue := []));
    Reaches(Initial(1), full + [Receive], FinishAndSignal(None), f.(queue := [], processed := [0]));
    run := full + [Receive] + [FinishAndSignal(None)] + [Park];
    Reaches(Initial(1), full + [Receive] + [FinishAndSignal(None)], Park,
            f.(queue := [], processed := [0], parking := None, waiting := {1}));
  }

  /** Nobody submits anything more and no drain begins. */
  predicate Quiet(run: seq<Action>) {
    forall i :: 0 <= i < |run| ==> !run[i].Submit? && !run[i].BeginDrain?
  }

  lemma {:induction false} UnattendedSleepsOn(s: State, run: seq<Action>)
    requires Invariant(s) && !Attended(s) && CanRun(s, run) && Quiet(run)
    ensures Sleepers(After(s, run)) == Sleepers(s) && !Attended(After(s, run))
    decreases run
  {
    if run != [] {
      var t := Apply(s, run[0]);
      StepKeeps(s, run[0]);
      assert Sleepers(t) == Sleepers(s) && !Attended(t);
      assert forall i :: 0 <= i < |run[1..]| ==> run[1..][i] == run[i + 1];
      UnattendedSleepsOn(t, run[1..]);
    }
  }

  /** How far the writer is from its next Signal. */
  function ToSignal(s: State): nat {
    (if s.parking.Some? then 4 else 0)
    + match s.phase
      case Processing(_) => 0
      case Running => if s.queue != [] then 1 else 2
      case _ => 3
  }

  /** What to do next so that somebody wakes up. */
  lemma WakingStep(s: State) returns (a: Action)
    requires Invariant(s) && !s.draining && Attended(s) && Sleepers(s) != {}
    ensures Enabled(s, a) && !a.Submit? && !a.BeginDrain?
    ensures var t := Apply(s, a);
      || (exists c :: c in Sleepers(s) && c !in Sleepers(t))
      || (Sleepers(t) == Sleepers(s) && !t.draining && Attended(t) && ToSignal(t) < ToSignal(s))
  {
    if s.parking.Some? {
      a := Park;
    } else if s.phase == NotStarted {
      a := Start;
    } else if s.phase.Processing? {
      var c :| c in Sleepers(s);
      a := FinishAndSignal(Some(c));
      assert c !in Sleepers(Apply(s, a));
    } else if s.queue != [] {
      a := Receive;
    } else {
      var c :| c in s.woken;
      a := Resume(c);
    }
  }

  lemma {:induction false} CanWake(s: State) returns (run: seq<Action>, c: Call)
    requires Invariant(s) && !s.draining && Attended(s) && Sleepers(s) != {}
    ensures CanRun(s, run) && Quiet(run) && c in Sleepers(s) && c !in Sleepers(After(s, run))
    decreases ToSignal(s)
  {
    var a := WakingStep(s);
    var t := Apply(s, a);
    if d :| d in Sleepers(s) && d !in Sleepers(t) {
      run, c := [a], d;
      assert run[1..] == [];
    } else {
      StepKeeps(s, a);
      var rest;
      rest, c := CanWake(t);
      run := [a] + rest;
      assert run[1..] == rest;
    }
  }

  /**
   Before the drain a sleeping Submit can still be woken, by some interleaving and without the help of a new
   Submit, exactly when it is attended.
   */
  lemma WakesExactly(s: State)
    requires Invariant(s) && !s.draining && Sleepers(s) != {}
    ensures (exists run, c :: CanRun(s, run) && Quiet(run) && c in Sleepers(s) && c !in Sleepers(After(s, run)))
            <==> Attended(s)
  {
    if Attended(s) {
      var run, c := CanWake(s);
    } else {
      forall run | CanRun(s, run) && Quiet(run) ensures Sleepers(After(s, run)) == Sleepers(s) {
        UnattendedSleepsOn(s, run);
      }
    }
  }
}
