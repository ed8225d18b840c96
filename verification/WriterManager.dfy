/**
 The writer as an object (internal/daemon/writer.go), its methods proved against the steps of the protocol.
 */
module WriterManagers {
  import opened Options
  import opened DaemonWriter

  // `deadline(k)`: at look `k` the select takes the arm of the deadline. Once that has fired and a job is there
  // as well, Go takes either arm.

  /** At the first `tick` looks a job was taken from the queue. */
  ghost predicate NotYet(deadline: nat -> bool, before: seq<Call>, after: seq<Call>, tick: nat) {
    tick <= |before| && after == before[tick..] && forall k :: 0 <= k < tick ==> !deadline(k)
  }

  /** A timeout is due to the deadline, at the first look that takes its arm. */
  ghost predicate TimedOut(deadline: nat -> bool, before: seq<Call>, after: seq<Call>) {
    exists t: nat :: NotYet(deadline, before, after, t) && deadline(t)
  }

  /**
   The mutable writer. Each method below is one or more steps: the body of Submit's loop under the lock, the
   producer calls, the arms of Run's select, and the three parts of drain.
   */
  class WriterManager {
    const cap: nat
    var phase: Phase
    var queue: seq<Call>
    var draining: bool
    var closed: bool
    var producers: set<Producer>
    var parking: Option<Call>
    var waiting: set<Call>
    var woken: set<Call>
    ghost var owner: map<Call, Producer>
    ghost var accepted: seq<Call>
    ghost var refused: set<Call>
    ghost var processed: seq<Call>

    ghost function View(): State
      reads this
    {
      State(cap, phase, queue, draining, closed, producers, parking, waiting, woken, owner, accepted, refused,
          processed)
    }

    constructor (chanSize: nat)
      ensures View() == Initial(chanSize)
    {
      cap, phase, queue := chanSize, NotStarted, [];
      draining, closed, producers := false, false, {};
      parking, waiting, woken := None, {}, {};
      owner, accepted, refused, processed := map[], [], {}, [];
    }

    /** One pass of Submit's loop: Some(true) for nil, Some(false) for ErrWriterClosed, None for going to wait. */
    method TrySend(c: Call) returns (result: Option<bool>)
      modifies this
      ensures View() == Attempt(old(View()), c)
      ensures result == (if old(closed) then Some(false) else if accepted != old(accepted) then Some(true) else None)
      ensures !old(closed) && |old(queue)| < cap ==> result == Some(true)
    {
      if closed {
        refused := refused + {c};
        return Some(false);
      }
      if |queue| < cap {
        queue, accepted := queue + [c], accepted + [c];
        return Some(true);
      }
      if phase == Running && queue == [] {
        phase, accepted := Processing(c), accepted + [c];
        return Some(true);
      }
      parking := Some(c);
      return None;
    }

    method AddProducer(p: Producer) returns (ok: bool)
      requires Enabled(View(), Action.AddProducer(p))
      modifies this
      ensures View() == Apply(old(View()), Action.AddProducer(p))
      ensures ok <==> !old(draining) && !old(closed)
      ensures producers == if ok then old(producers) + {p} else old(producers)
    {
      if draining || closed {
        return false;
      }
      producers := producers + {p};
      return true;
    }

    /** An arm of Run's select: process the job, then wake one sleeper if there is any. */
    method ProcessNext() returns (ghost run: seq<Action>)
      requires phase == Running && queue != []
      modifies this
      ensures CanRun(old(View()), run) && View() == After(old(View()), run)
      ensures phase == Running && processed == old(processed) + [old(queue)[0]]
      ensures old(waiting) != {} ==> exists c :: c in old(waiting) && waiting == old(waiting) - {c} && c in woken
    {
      ghost var s := View();
      phase, queue := Processing(queue[0]), queue[1..];
      ghost var t := View();
      Reaches(s, [], Receive, t);
      ghost var wake := FinishJob();
      Reaches(s, [] + [Receive], FinishAndSignal(wake), View());
      run := [] + [Receive] + [FinishAndSignal(wake)];
    }

    method FinishJob() returns (ghost wake: Option<Call>)
      requires phase.Processing?
      modifies this
      ensures Enabled(old(View()), FinishAndSignal(wake)) && View() == Apply(old(View()), FinishAndSignal(wake))
      ensures if wake.Some?
              then wake.value in old(waiting) && waiting == old(waiting) - {wake.value} && wake.value in woken
              else old(waiting) == {}
    {
      processed, phase := processed + [phase.job], Running;
      wake := None;
      if c :| c in waiting {
        wake := Some(c);
        waiting, woken := waiting - {c}, woken + {c};
      } else {
        assert waiting == {};
      }
    }

    /** The first two parts of drain: no producer may join, and once the last has left everybody is woken. */
    method BeginDrain()
      requires Enabled(View(), Action.BeginDrain)
      modifies `phase, `draining
      ensures View() == Apply(old(View()), Action.BeginDrain)
    {
      phase, draining := AwaitingProducers, true;
    }

    method CloseAndWakeAll()
      requires Enabled(View(), Close)
      modifies `phase, `closed, `waiting, `woken
      ensures View() == Apply(old(View()), Close)
    {
      phase, closed, waiting, woken := Draining, true, {}, woken + waiting;
    }

    /** An arm of drain's select: one buffered job is processed. */
    method DrainOne(ghost s: State, ghost run: seq<Action>) returns (ghost more: seq<Action>)
      requires phase == Draining && queue != [] && CanRun(s, run) && View() == After(s, run)
      modifies this
      ensures phase == Draining && queue == old(queue)[1..]
      ensures CanRun(s, more) && View() == After(s, more)
    {
      Reaches(s, run, DrainReceive, Apply(After(s, run), DrainReceive));
      more := run + [DrainReceive];
      Reaches(s, more, DrainFinish, Apply(After(s, more), DrainFinish));
      more := more + [DrainFinish];
      processed, queue := processed + [queue[0]], queue[1..];
    }

    /** The last part of drain: take what is buffered until nothing is left or the deadline fires. */
    method DrainQueue(deadline: nat -> bool) returns (ghost run: seq<Action>)
      requires phase == Draining && Invariant(View())
      modifies this
      ensures CanRun(old(View()), run) && View() == After(old(View()), run)
      ensures phase.Finished? && Invariant(View())
      ensures phase == Finished(false) ==> processed == accepted == old(accepted)
      ensures phase == Finished(true) ==> TimedOut(deadline, old(queue), queue)
    {
      ghost var s := View();
      run := [];
      var tick := 0;
      while true
        invariant phase == Draining
        invariant CanRun(s, run) && View() == After(s, run)
        invariant NotYet(deadline, old(queue), queue, tick)
        decreases |queue|
      {
        if deadline(tick) {
          run := EndDrain(s, run, true);
          break;
        }
        if queue == [] {
          run := EndDrain(s, run, false);
          break;
        }
        run := DrainOne(s, run);
        tick := tick + 1;
      }
      RunKeeps(s, run);
      DrainIsFinal(s, run);
    }

    /** The arms of drain's select that end it. */
    method EndDrain(ghost s: State, ghost run: seq<Action>, timedOut: bool) returns (ghost more: seq<Action>)
      requires phase == Draining && (timedOut || queue == []) && CanRun(s, run) && View() == After(s, run)
      modifies `phase
      ensures phase == Finished(timedOut) && CanRun(s, more) && View() == After(s, more)
    {
      ghost var a := if timedOut then DrainTimeout else DrainEmpty;
      Reaches(s, run, a, Apply(After(s, run), a));
      more := run + [a];
      phase := Finished(timedOut);
    }
  }
}
