/**
 The writer's queue and shutdown protocol (internal/daemon/writer.go) as a system of interleaved steps.

 A step is what one goroutine does between two points where others can run: a stretch under `mu`, one
 channel operation, one WaitGroup operation, one Signal. `Submit` gives up the lock only inside Wait, so
 the moment between a failed send and going to sleep is a state of its own: the lock is held, but the
 writer goroutine, which takes no lock, can run.

 A job is named by the Submit call that carries it. What processing a job does is not part of this file.
 */
module DaemonWriter {
  import opened Options

  type Call = nat
  type Producer = nat

  /** Where the writer goroutine is. */
  datatype Phase =
    | NotStarted
    | Running
    | Processing(job: Call)
    | AwaitingProducers
    | Draining
    | DrainProcessing(job: Call)
    | Finished(timedOut: bool)

  datatype State = State(
    cap: nat,
    phase: Phase,
    queue: seq<Call>,
    draining: bool,
    closed: bool,
    producers: set<Producer>,
    /** The Submit that found the channel full and holds the lock, about to wait. */
    parking: Option<Call>,
    waiting: set<Call>,
    woken: set<Call>,
    /** The producer on whose behalf a call was made, if any. */
    owner: map<Call, Producer>,
    // history
    accepted: seq<Call>,
    refused: set<Call>,
    processed: seq<Call>
  )

  datatype Action =
    | Start
    | Submit(call: Call, from: Option<Producer>)
    | Resume(call: Call)
    | Park
    | Receive
    | FinishAndSignal(wake: Option<Call>)
    | BeginDrain
    | Close
    | DrainReceive
    | DrainFinish
    | DrainEmpty
    | DrainTimeout
    | AddProducer(producer: Producer)
    | RemoveProducer(producer: Producer)

  function Initial(cap: nat): State {
    State(cap, NotStarted, [], false, false, {}, None, {}, {}, map[], [], {}, [])
  }

  function Calls(s: seq<Call>): set<Call> {
    set c | c in s
  }

  function Parked(s: State): set<Call> {
    if s.parking.Some? then {s.parking.value} else {}
  }

  /** Calls that have not returned. */
  function Pending(s: State): set<Call> {
    Parked(s) + s.waiting + s.woken
  }

  function Made(s: State): set<Call> {
    Pending(s) + Calls(s.accepted) + s.refused
  }

  /** Calls made for a producer that is still registered. */
  function OfProducers(s: State, calls: set<Call>): set<Call> {
    set c | c in calls && c in s.owner && s.owner[c] in s.producers
  }

  predicate LockFree(s: State) {
    s.parking.None?
  }

  /**
   What may happen next. A producer leaves only when its own calls have returned: that is how the pipeline
   and the watcher use it.
   */
  predicate Enabled(s: State, a: Action) {
    match a
    case Start => s.phase == NotStarted
    case Submit(c, from) => LockFree(s) && c !in Made(s) && c !in s.owner && (from.Some? ==> from.value in s.producers)
    case Resume(c) => LockFree(s) && c in s.woken
    case Park => s.parking.Some?
    case Receive => s.phase == Running && s.queue != []
    case FinishAndSignal(wake) =>
      && s.phase.Processing?
      && (if wake.Some? then wake.value in s.waiting else s.waiting == {})
    case BeginDrain => s.phase == Running && LockFree(s)
    case Close => s.phase == AwaitingProducers && s.producers == {} && LockFree(s)
    case DrainReceive => s.phase == Draining && s.queue != []
    case DrainFinish => s.phase.DrainProcessing?
    case DrainEmpty => s.phase == Draining && s.queue == []
    case DrainTimeout => s.phase == Draining
    case AddProducer(p) => LockFree(s) && p !in s.producers
    case RemoveProducer(p) => p in s.producers && forall c :: c in Pending(s) && c in s.owner ==> s.owner[c] != p
  }

  /** One attempt of a Submit under the lock. An idle receiver takes the job directly. */
  function Attempt(s: State, c: Call): State {
    if s.closed then s.(refused := s.refused + {c})
    else if |s.queue| < s.cap then s.(queue := s.queue + [c], accepted := s.accepted + [c])
    else if s.phase == Running && s.queue == [] then s.(phase := Processing(c), accepted := s.accepted + [c])
    else s.(parking := Some(c))
  }

  function Apply(s: State, a: Action): State
    requires Enabled(s, a)
  {
    match a
    case Start => s.(phase := Running)
    case Submit(c, from) => Attempt(if from.Some? then s.(owner := s.owner[c := from.value]) else s, c)
    case Resume(c) => Attempt(s.(woken := s.woken - {c}), c)
    case Park => s.(parking := None, waiting := s.waiting + {s.parking.value})
    case Receive => s.(phase := Processing(s.queue[0]), queue := s.queue[1..])
    case FinishAndSignal(wake) =>
      var t := s.(phase := Running, processed := s.processed + [s.phase.job]);
      if wake.Some? then t.(waiting := t.waiting - {wake.value}, woken := t.woken + {wake.value}) else t
    case BeginDrain => s.(phase := AwaitingProducers, draining := true)
    case Close => s.(phase := Draining, closed := true, waiting := {}, woken := s.woken + s.waiting)
    case DrainReceive => s.(phase := DrainProcessing(s.queue[0]), queue := s.queue[1..])
    case DrainFinish => s.(phase := Draining, processed := s.processed + [s.phase.job])
    case DrainEmpty => s.(phase := Finished(false))
    case DrainTimeout => s.(phase := Finished(true))
    case AddProducer(p) => if s.draining || s.closed then s else s.(producers := s.producers + {p})
    case RemoveProducer(p) => s.(producers := s.producers - {p})
  }

  // ---- Runs ----

  predicate CanRun(s: State, run: seq<Action>)
    decreases run
  {
    run == [] || (Enabled(s, run[0]) && CanRun(Apply(s, run[0]), run[1..]))
  }

  function After(s: State, run: seq<Action>): State
    requires CanRun(s, run)
    decreases run
  {
    if run == [] then s else After(Apply(s, run[0]), run[1..])
  }

  lemma {:induction false} RunsCompose(s: State, first: seq<Action>, second: seq<Action>)
    requires CanRun(s, first) && CanRun(After(s, first), second)
    ensures CanRun(s, first + second) && After(s, first + second) == After(After(s, first), second)
    decreases first
  {
    if first == [] {
      assert first + second == second;
    } else {
      assert (first + second)[1..] == first[1..] + second;
      RunsCompose(Apply(s, first[0]), first[1..], second);
    }
  }

  lemma Reaches(s: State, run: seq<Action>, a: Action, t: State)
    requires CanRun(s, run) && Enabled(After(s, run), a) && t == Apply(After(s, run), a)
    ensures CanRun(s, run + [a]) && After(s, run + [a]) == t
  {
    assert [a][1..] == [];
    RunsCompose(s, run, [a]);
  }

  // ---- The invariant ----

  function InFlight(p: Phase): seq<Call> {
    match p
    case Processing(j) => [j]
    case DrainProcessing(j) => [j]
    case _ => []
  }

  ghost predicate NoDuplicates(s: seq<Call>) {
    forall i, j :: 0 <= i < j < |s| ==> s[i] != s[j]
  }

  predicate DrainBegun(p: Phase) {
    p == AwaitingProducers || DrainClosed(p)
  }

  predicate DrainClosed(p: Phase) {
    p == Draining || p.DrainProcessing? || p.Finished?
  }

  /** No job is lost, reordered or duplicated. */
  ghost predicate JobsKept(s: State) {
    && s.accepted == s.processed + InFlight(s.phase) + s.queue
    && NoDuplicates(s.accepted)
    && |s.queue| <= s.cap
    && (s.phase == Finished(false) ==> s.queue == [])
  }

  /** Every call is in one place: still blocked, accepted or refused. */
  ghost predicate CallsKept(s: State) {
    && Parked(s) !! s.waiting !! s.woken !! Calls(s.accepted) !! s.refused
    && s.owner.Keys <= Made(s)
  }

  /** The two flags follow the drain, and once closed nobody is registered, blocked or about to block. */
  ghost predicate FlagsKept(s: State) {
    && (s.draining <==> DrainBegun(s.phase))
    && (s.closed <==> DrainClosed(s.phase))
    && (s.closed ==> s.producers == {} && s.waiting == {} && s.parking.None?)
    && (s.refused != {} ==> s.closed)
  }

  ghost predicate Invariant(s: State) {
    JobsKept(s) && CallsKept(s) && FlagsKept(s)
  }

  lemma AppendKeepsDistinct(s: seq<Call>, c: Call)
    requires NoDuplicates(s) && c !in s
    ensures NoDuplicates(s + [c]) && Calls(s + [c]) == Calls(s) + {c}
  {}

  lemma {:induction false} AttemptKeeps(s: State, c: Call)
    requires JobsKept(s) && FlagsKept(s) && LockFree(s) && c !in Made(s)
    requires Parked(s) !! s.waiting !! s.woken !! Calls(s.accepted) !! s.refused
    requires s.owner.Keys <= Made(s) + {c}
    ensures Invariant(Attempt(s, c))
  {
    AppendKeepsDistinct(s.accepted, c);
    var t := Attempt(s, c);
    if t.queue != s.queue {
      assert t.accepted == s.processed + InFlight(s.phase) + s.queue + [c];
    }
  }

  lemma {:induction false} JobsStepKeeps(s: State, a: Action)
    requires Invariant(s) && Enabled(s, a) && !a.Submit? && !a.Resume?
    ensures JobsKept(Apply(s, a))
  {
    var t := Apply(s, a);
    if a.Receive? || a.DrainReceive? {
      assert [s.queue[0]] + s.queue[1..] == s.queue;
      assert t.accepted == s.processed + [s.queue[0]] + s.queue[1..];
    }
  }

  lemma CallsStepKeeps(s: State, a: Action)
    requires Invariant(s) && Enabled(s, a) && !a.Submit? && !a.Resume?
    ensures CallsKept(Apply(s, a))
  {}

  lemma FlagsStepKeeps(s: State, a: Action)
    requires FlagsKept(s) && Enabled(s, a) && !a.Submit? && !a.Resume?
    ensures FlagsKept(Apply(s, a))
  {}

  lemma {:induction false} StepKeeps(s: State, a: Action)
    requires Invariant(s) && Enabled(s, a)
    ensures Invariant(Apply(s, a))
  {
    match a
    case Submit(c, from) =>
      AttemptKeeps(if from.Some? then s.(owner := s.owner[c := from.value]) else s, c);
    case Resume(c) =>
      AttemptKeeps(s.(woken := s.woken - {c}), c);
    case _ =>
      JobsStepKeeps(s, a);
      CallsStepKeeps(s, a);
      FlagsStepKeeps(s, a);
  }

  lemma {:induction false} RunKeeps(s: State, run: seq<Action>)
    requires Invariant(s) && CanRun(s, run)
    ensures Invariant(After(s, run))
    decreases run
  {
    if run != [] {
      StepKeeps(s, run[0]);
      RunKeeps(Apply(s, run[0]), run[1..]);
    }
  }

  /** Every reachable state, whatever the interleaving. */
  lemma {:induction false} ReachableInvariant(cap: nat, run: seq<Action>)
    requires CanRun(Initial(cap), run)
    ensures Invariant(After(Initial(cap), run))
  {
    RunKeeps(Initial(cap), run);
  }

  // ---- Shutdown ----

  lemma {:induction false} DrainStep(s: State, a: Action)
    requires Invariant(s) && Enabled(s, a)
    ensures var t := Apply(s, a);
      && (s.draining ==> t.draining && t.producers <= s.producers)
      && (s.closed ==> t.closed && t.accepted == s.accepted)
      && (s.phase.Finished? ==> t.phase == s.phase && t.queue == s.queue && t.processed == s.processed)
  {}

  /**
   Once draining has begun no producer joins; once closed no call is accepted any more and the producers
   are gone; once finished nothing is processed any more.
   */
  lemma {:induction false} DrainIsFinal(s: State, run: seq<Action>)
    requires Invariant(s) && CanRun(s, run)
    ensures var t := After(s, run);
      && (s.draining ==> t.draining && t.producers <= s.producers)
      && (s.closed ==> t.closed && t.producers == {} && t.accepted == s.accepted)
      && (s.phase.Finished? ==> t.phase == s.phase && t.queue == s.queue && t.processed == s.processed)
    decreases run
  {
    if run != [] {
      DrainStep(s, run[0]);
      StepKeeps(s, run[0]);
      DrainIsFinal(Apply(s, run[0]), run[1..]);
    }
  }

  /**
   However a run goes on after the drain has ended without its deadline, what Submit ever accepted is what
   was processed: the same calls, in the same order, each once.
   */
  lemma {:induction false} CleanDrainProcessesAll(cap: nat, run: seq<Action>, more: seq<Action>)
    requires CanRun(Initial(cap), run) && CanRun(After(Initial(cap), run), more)
    requires After(Initial(cap), run).phase == Finished(false)
    ensures var t := After(After(Initial(cap), run), more);
      t.processed == t.accepted == After(Initial(cap), run).accepted && NoDuplicates(t.processed)
  {
    var s := After(Initial(cap), run);
    ReachableInvariant(cap, run);
    RunKeeps(s, more);
    DrainIsFinal(s, more);
  }

  /** After its deadline the drain has processed exactly the calls accepted first; the queue is what it drops. */
  lemma {:induction false} TimedOutDrainDropsTheTail(cap: nat, run: seq<Action>, more: seq<Action>)
    requires CanRun(Initial(cap), run) && CanRun(After(Initial(cap), run), more)
    requires After(Initial(cap), run).phase == Finished(true)
    ensures var t := After(After(Initial(cap), run), more);
      t.accepted == t.processed + t.queue && t.processed == After(Initial(cap), run).processed && |t.queue| <= cap
  {
    var s := After(Initial(cap), run);
    ReachableInvariant(cap, run);
    RunKeeps(s, more);
    DrainIsFinal(s, more);
    CapacityFixed(Initial(cap), run);
    CapacityFixed(s, more);
  }

  lemma {:induction false} CapacityFixed(s: State, run: seq<Action>)
    requires CanRun(s, run)
    ensures After(s, run).cap == s.cap
    decreases run
  {
    if run != [] {
      CapacityFixed(Apply(s, run[0]), run[1..]);
    }
  }

  lemma {:induction false} OutcomeStep(s: State, a: Action)
    requires Enabled(s, a)
    ensures var t := Apply(s, a); Calls(s.accepted) <= Calls(t.accepted) && s.refused <= t.refused
  {}

  lemma {:induction false} OutcomesGrow(s: State, run: seq<Action>)
    requires CanRun(s, run)
    ensures Calls(s.accepted) <= Calls(After(s, run).accepted) && s.refused <= After(s, run).refused
    decreases run
  {
    if run != [] {
      OutcomeStep(s, run[0]);
      OutcomesGrow(Apply(s, run[0]), run[1..]);
    }
  }

  /**
   What Submit returned stays true. A call it accepted sits once among the processed, in flight or queued,
   and is never refused; a call it refused never enters the queue, and only a closed writer refuses.
   */
  lemma {:induction false} SubmitTellsTheTruth(cap: nat, run: seq<Action>, more: seq<Action>, c: Call)
    requires CanRun(Initial(cap), run) && CanRun(After(Initial(cap), run), more)
    ensures var s, t := After(Initial(cap), run), After(After(Initial(cap), run), more);
      && (c in s.accepted ==> c in t.processed + InFlight(t.phase) + t.queue && c !in t.refused && c !in Pending(t))
      && (c in s.refused ==> c !in t.accepted && c !in t.processed + InFlight(t.phase) + t.queue && s.closed)
      && NoDuplicates(t.processed + InFlight(t.phase) + t.queue)
  {
    var s := After(Initial(cap), run);
    ReachableInvariant(cap, run);
    RunKeeps(s, more);
    OutcomesGrow(s, more);
    assert c in s.accepted ==> c in Calls(s.accepted);
    assert c in Calls(After(s, more).accepted) <==> c in After(s, more).accepted;
  }

  // ---- The state read off the history ----

  /** Who joined before the drain began and has not left. */
  function Registered(run: seq<Action>): set<Producer> {
    if run == [] then {}
    else
      var before := run[..|run| - 1];
      match run[|run| - 1]
      case AddProducer(p) => if BeginDrain in before then Registered(before) else Registered(before) + {p}
      case RemoveProducer(p) => Registered(before) - {p}
      case _ => Registered(before)
  }

  lemma {:induction false} RunSplits(s: State, run: seq<Action>, n: nat)
    requires n <= |run| && CanRun(s, run)
    ensures CanRun(s, run[..n]) && CanRun(After(s, run[..n]), run[n..])
    ensures After(s, run) == After(After(s, run[..n]), run[n..])
    decreases run
  {
    if n == 0 {
      assert run[0..] == run;
    } else {
      RunSplits(Apply(s, run[0]), run[1..], n - 1);
      assert run[..n][1..] == run[1..][..n - 1] && run[n..] == run[1..][n - 1..];
    }
  }

  lemma LastStep(s: State, run: seq<Action>)
    requires run != [] && CanRun(s, run)
    ensures var n := |run| - 1;
      && CanRun(s, run[..n]) && Enabled(After(s, run[..n]), run[n])
      && After(s, run) == Apply(After(s, run[..n]), run[n])
  {
    var n := |run| - 1;
    RunSplits(s, run, n);
    assert run[n..] == [run[n]] && [run[n]][1..] == [];
  }

  /**
   A producer is registered exactly when it joined before the drain began and has not left; the writer drains
   once the drain has begun, and is closed once that closed it.
   */
  lemma {:induction false} RegisteredExactly(cap: nat, run: seq<Action>)
    requires CanRun(Initial(cap), run)
    ensures var s := After(Initial(cap), run);
      s.producers == Registered(run) && (s.draining <==> BeginDrain in run) && (s.closed <==> Close in run)
  {
    if run != [] {
      var n := |run| - 1;
      LastStep(Initial(cap), run);
      RegisteredExactly(cap, run[..n]);
      ReachableInvariant(cap, run[..n]);
      assert run == run[..n] + [run[n]];
      FlagStep(After(Initial(cap), run[..n]), run[n]);
    }
  }

  lemma FlagStep(s: State, a: Action)
    requires Invariant(s) && Enabled(s, a)
    ensures var t := Apply(s, a);
      && (t.draining <==> s.draining || a == BeginDrain)
      && (t.closed <==> s.closed || a == Close)
      && t.producers == (match a
                         case AddProducer(p) => if s.draining then s.producers else s.producers + {p}
                         case RemoveProducer(p) => s.producers - {p}
                         case _ => s.producers)
  {}

  /** How many accepted jobs wait in the channel. */
  function Buffered(s: State): int {
    |s.accepted| - |s.processed| - |InFlight(s.phase)|
  }

  /**
   A new call is refused exactly by a writer that was closed, and accepted exactly if the channel has room or the
   writer waits for a job; otherwise it goes to sleep.
   */
  lemma SubmitExactly(cap: nat, run: seq<Action>, c: Call, from: Option<Producer>)
    requires CanRun(Initial(cap), run) && Enabled(After(Initial(cap), run), Submit(c, from))
    ensures var s, t := After(Initial(cap), run), Apply(After(Initial(cap), run), Submit(c, from));
      && (c in t.refused <==> Close in run)
      && (c in t.accepted <==> Close !in run && (Buffered(s) < cap || (s.phase == Running && Buffered(s) == 0)))
      && (t.parking == Some(c) <==> c !in t.refused && c !in t.accepted)
  {
    var s := After(Initial(cap), run);
    ReachableInvariant(cap, run);
    RegisteredExactly(cap, run);
    CapacityFixed(Initial(cap), run);
    assert c !in Calls(s.accepted) && c !in s.refused;
    assert Buffered(s) == |s.queue|;
  }
}
