// The functor queue and wakeup protocol of one event loop, thread by thread: src/net/EventLoop.cpp.
//
// A step is one atomic action of one thread: the locked push of `queueInLoop`, the wakeup decision
// that follows it, one functor of a batch, and so on.  Runs interleave any number of producer threads
// with the loop thread in any order.

module LoopSpec {

  type Functor = nat
  type Thread = nat

  const LOOP_THREAD: Thread := 0

  /** The largest value an eventfd counter takes; a further write fails with EAGAIN. */
  const COUNTER_MAX: nat := 0xffff_ffff_ffff_fffe

  datatype Pc =
    | NotLooping
    | Polling
    | Dispatching(drain: bool)   // whether the wakeup channel is active and not yet read
    | Running(pos: nat)          // the next functor of the batch

  datatype Loop = Loop(
    pc: Pc,
    pending: seq<Functor>,
    batch: seq<Functor>,
    calling: bool,               // callingPendingFunctors_
    counter: nat,                // the eventfd
    owing: set<Thread>,          // threads between their push and their wakeup decision
    queued: seq<Functor>,        // every functor ever queued
    executed: seq<Functor>)      // every queued functor ever run

  const START: Loop := Loop(NotLooping, [], [], false, 0, {}, [], [])

  datatype Step =
    | Push(thread: Thread, functor: Functor)
    | Decide(thread: Thread)
    | Start
    | PollReturn(ready: bool)
    | Drain
    | BeginBatch
    | RunOne
    | EndBatch

  /** The loop thread is free to move on when it owes no decision. */
  predicate LoopThreadFree(s: Loop) { LOOP_THREAD !in s.owing }

  predicate Enabled(s: Loop, step: Step) {
    match step
    case Push(t, _) => t !in s.owing && (t == LOOP_THREAD ==> !s.pc.Polling?)
    case Decide(t) => t in s.owing
    case Start => s.pc.NotLooping? && LoopThreadFree(s)
    case PollReturn(ready) => s.pc.Polling? && (ready ==> s.counter > 0)
    case Drain => s.pc == Dispatching(true) && LoopThreadFree(s)
    case BeginBatch => s.pc == Dispatching(false) && LoopThreadFree(s)
    case RunOne => s.pc.Running? && s.pc.pos < |s.batch| && LoopThreadFree(s)
    case EndBatch => s.pc == Running(|s.batch|) && LoopThreadFree(s)
  }

  function Woken(counter: nat): nat { if counter < COUNTER_MAX then counter + 1 else counter }

  function After(s: Loop, step: Step): Loop
    requires Enabled(s, step)
  {
    match step
    case Push(t, f) => s.(pending := s.pending + [f], queued := s.queued + [f], owing := s.owing + {t})
    case Decide(t) =>
      s.(owing := s.owing - {t},
         counter := if t != LOOP_THREAD || s.calling then Woken(s.counter) else s.counter)
    case Start => s.(pc := Polling)
    case PollReturn(ready) => s.(pc := Dispatching(ready))
    case Drain => s.(pc := Dispatching(false), counter := 0)
    case BeginBatch => s.(pc := Running(0), calling := true, batch := s.pending, pending := [])
    case RunOne => s.(pc := Running(s.pc.pos + 1), executed := s.executed + [s.batch[s.pc.pos]])
    case EndBatch => s.(pc := Polling, calling := false, batch := [])
  }

  predicate Legal(run: seq<Step>)
    decreases |run|, 0
  {
    run == [] || (Legal(run[..|run| - 1]) && Enabled(RunLoop(run[..|run| - 1]), run[|run| - 1]))
  }

  function RunLoop(run: seq<Step>): Loop
    requires Legal(run)
    decreases |run|, 1
  {
    if run == [] then START else After(RunLoop(run[..|run| - 1]), run[|run| - 1])
  }

  // ---------------------------------------------------------------------------------------------
  // The functor queue
  // ---------------------------------------------------------------------------------------------

  function Remaining(s: Loop): seq<Functor> {
    if s.pc.Running? && s.pc.pos <= |s.batch| then s.batch[s.pc.pos..] else []
  }

  ghost predicate Consistent(s: Loop) {
    && (s.calling <==> s.pc.Running?)
    && (s.pc.Polling? ==> LoopThreadFree(s))
    && (if s.pc.Running? then s.pc.pos <= |s.batch| else s.batch == [])
    && s.executed + Remaining(s) + s.pending == s.queued
  }

  lemma StepConsistent(s: Loop, step: Step)
    requires Consistent(s) && Enabled(s, step)
    ensures Consistent(After(s, step))
  {
    match step
    case Push(_, f) =>
      assert s.executed + Remaining(s) + (s.pending + [f]) == s.queued + [f];
    case RunOne =>
      assert s.executed + Remaining(s) == (s.executed + [s.batch[s.pc.pos]]) + Remaining(After(s, step));
    case _ =>
  }

  /** The functors of the pushes of a run, in order. */
  function PushedFunctors(run: seq<Step>): seq<Functor> {
    if run == [] then []
    else PushedFunctors(run[..|run| - 1]) + if run[|run| - 1].Push? then [run[|run| - 1].functor] else []
  }

  /** Everything ever pushed has been run, is in the rest of the batch, or is pending: in order, and
      exactly once. */
  lemma {:induction false} QueueIsFifo(run: seq<Step>)
    requires Legal(run)
    ensures Consistent(RunLoop(run))
    ensures var s := RunLoop(run); s.executed + Remaining(s) + s.pending == PushedFunctors(run)
  {
    if run != [] {
      var before, step := run[..|run| - 1], run[|run| - 1];
      QueueIsFifo(before);
      StepConsistent(RunLoop(before), step);
      assert RunLoop(run).queued == RunLoop(before).queued + if step.Push? then [step.functor] else [];
    }
  }

  // ---------------------------------------------------------------------------------------------
  // No lost wakeup
  // ---------------------------------------------------------------------------------------------

  /** Some thread has pushed and is still going to write to the eventfd. */
  ghost predicate WakeupOwed(s: Loop) {
    exists t <- s.owing :: t != LOOP_THREAD || s.calling
  }

  /** Unless the loop is about to look at the queue anyway, a non-empty queue has a wakeup behind it. */
  ghost predicate Awake(s: Loop) {
    s.pending != [] && !s.pc.Dispatching? ==> s.counter > 0 || WakeupOwed(s)
  }

  /** Once the loop runs, no step of any thread breaks this. */
  lemma StepStaysAwake(s: Loop, step: Step)
    requires Consistent(s) && Awake(s) && Enabled(s, step) && !s.pc.NotLooping?
    ensures Awake(After(s, step))
  {
    var s' := After(s, step);
    match step
    case Push(t, _) =>
      assert t in s'.owing;
      assert forall u <- s.owing :: u in s'.owing;
    case Decide(t) =>
      if WakeupOwed(s) && !(t != LOOP_THREAD || s.calling) {
        var u :| u in s.owing && (u != LOOP_THREAD || s.calling);
        assert u in s'.owing;
      }
    case EndBatch =>
      if WakeupOwed(s) {
        var u :| u in s.owing && (u != LOOP_THREAD || s.calling);
        assert u != LOOP_THREAD && u in s'.owing;
      }
    case _ =>
  }

  /** Blocked in poll with functors pending, a loop can be woken: the eventfd is readable, or another
      thread has pushed and not yet written. */
  ghost predicate Wakeable(s: Loop) {
    s.pc.Polling? && s.pending != [] ==> s.counter > 0 || exists t <- s.owing :: t != LOOP_THREAD
  }

  ghost predicate AlwaysWakeable(run: seq<Step>)
    requires Legal(run)
  {
    Wakeable(RunLoop(run)) && (run != [] ==> AlwaysWakeable(run[..|run| - 1]))
  }

  predicate IsForeignPush(step: Step) { step.Push? && step.thread != LOOP_THREAD }

  ghost predicate Pushed(run: seq<Step>, k: nat)
    requires k <= |run|
  {
    exists i :: 0 <= i < k && run[i].Push?
  }

  ghost predicate PushedByAnother(run: seq<Step>, k: nat)
    requires k <= |run|
  {
    exists i :: 0 <= i < k && IsForeignPush(run[i])
  }

  /** If anything is pushed ahead of `loop`, another thread has pushed something. */
  ghost predicate StartsCovered(run: seq<Step>) {
    forall k :: 0 <= k < |run| && run[k].Start? && Pushed(run, k) ==> PushedByAnother(run, k)
  }

  /** Ahead of `loop`, the eventfd knows of the pushes of other threads and of nothing else. */
  lemma {:induction false} AheadOfLoop(run: seq<Step>)
    requires Legal(run) && RunLoop(run).pc.NotLooping?
    ensures RunLoop(run).pending != [] <==> Pushed(run, |run|)
    ensures RunLoop(run).counter > 0 || (exists t <- RunLoop(run).owing :: t != LOOP_THREAD) <==>
            PushedByAnother(run, |run|)
  {
    QueueIsFifo(run);
    if run != [] {
      var before, step := run[..|run| - 1], run[|run| - 1];
      AheadOfLoop(before);
      QueueIsFifo(before);
      assert forall i :: 0 <= i < |before| ==> before[i] == run[i];
      assert PushedByAnother(before, |before|) ==> PushedByAnother(run, |run|);
      assert PushedByAnother(run, |run|) ==> PushedByAnother(before, |before|) || IsForeignPush(step);
      var s, s' := RunLoop(before), RunLoop(run);
      assert forall t <- s.owing :: step == Decide(t) || t in s'.owing;
      assert forall t <- s'.owing :: t in s.owing || step == Push(t, step.functor);
      assert step.Push? ==> step.thread in s'.owing;
    }
  }

  lemma {:induction false} AwakeOnceStarted(run: seq<Step>)
    requires Legal(run) && StartsCovered(run) && !RunLoop(run).pc.NotLooping?
    ensures Awake(RunLoop(run))
  {
    var before, step := run[..|run| - 1], run[|run| - 1];
    assert forall i :: 0 <= i < |before| ==> before[i] == run[i];
    QueueIsFifo(before);
    if step.Start? {
      AheadOfLoop(before);
      assert Pushed(before, |before|) ==> Pushed(run, |run| - 1);
    } else {
      assert StartsCovered(before) by { CoveredBefore(run); }
      AwakeOnceStarted(before);
      StepStaysAwake(RunLoop(before), step);
    }
  }

  lemma CoveredBefore(run: seq<Step>)
    requires run != []
    ensures StartsCovered(run) <==>
            && StartsCovered(run[..|run| - 1])
            && (run[|run| - 1].Start? && Pushed(run, |run| - 1) ==> PushedByAnother(run, |run| - 1))
  {
    var before := run[..|run| - 1];
    forall k | 0 <= k <= |before|
      ensures Pushed(before, k) <==> Pushed(run, k)
      ensures PushedByAnother(before, k) <==> PushedByAnother(run, k)
    {
      assert forall i :: 0 <= i < k ==> before[i] == run[i];
    }
  }

  /** No wakeup is ever lost, for any number of threads in any interleaving, exactly when `loop` does
      not start with pushes of its own thread alone behind it. */
  lemma {:induction false} NoLostWakeupIff(run: seq<Step>)
    requires Legal(run)
    ensures AlwaysWakeable(run) <==> StartsCovered(run)
  {
    QueueIsFifo(run);
    if run != [] {
      var before, step := run[..|run| - 1], run[|run| - 1];
      NoLostWakeupIff(before);
      CoveredBefore(run);
      if StartsCovered(run) && !RunLoop(run).pc.NotLooping? {
        AwakeOnceStarted(run);
      }
      if step.Start? {
        AheadOfLoop(before);
        assert Pushed(run, |before|) ==> Pushed(before, |before|);
        assert PushedByAnother(before, |before|) ==> PushedByAnother(run, |before|);
      }
    }
  }

  /** No lost wakeup: a loop blocked in poll with functors pending is about to be woken, by the
      counter or by another thread that has pushed and not yet written. */
  lemma NoLostWakeup(run: seq<Step>)
    requires Legal(run) && StartsCovered(run)
    requires RunLoop(run).pc.Polling? && RunLoop(run).pending != []
    ensures RunLoop(run).counter > 0 || exists t <- RunLoop(run).owing :: t != LOOP_THREAD
  {
    NoLostWakeupIff(run);
  }

  /** And the wakeup arrives: at most one step of some other thread, always enabled, makes poll
      report the wakeup channel. */
  lemma WakeupArrives(run: seq<Step>) returns (more: seq<Step>)
    requires Legal(run) && StartsCovered(run)
    requires RunLoop(run).pc.Polling? && RunLoop(run).pending != []
    ensures |more| <= 1 && Legal(run + more) && Enabled(RunLoop(run + more), PollReturn(true))
  {
    NoLostWakeup(run);
    if RunLoop(run).counter > 0 {
      more := [];
      assert run + more == run;
    } else {
      var t :| t in RunLoop(run).owing && t != LOOP_THREAD;
      more := [Decide(t)];
      assert (run + more)[..|run|] == run;
    }
  }

  /** The excluded case is real: one early push, and the loop polls with nothing to wake it. */
  lemma EarlyPushIsLost(f: Functor) returns (run: seq<Step>)
    ensures Legal(run) && RunLoop(run).pc.Polling? && RunLoop(run).pending == [f]
    ensures RunLoop(run).counter == 0 && RunLoop(run).owing == {}
  {
    run := [Push(LOOP_THREAD, f), Decide(LOOP_THREAD), Step.Start];
    assert run[..2][..1] == [Push(LOOP_THREAD, f)] && run[..2][1] == Decide(LOOP_THREAD);
    assert run[..2][..1][..0] == [];
    assert Legal([]) && Enabled(RunLoop([]), Push(LOOP_THREAD, f));
    assert Legal(run[..2][..1]);
    assert Legal(run[..2]);
  }

  /** A functor that re-queues itself leaves a wakeup behind: the counter is positive once the loop
      thread, running a batch, has pushed and decided. */
  lemma RequeueWakes(s: Loop, f: Functor)
    requires Consistent(s) && s.pc.Running? && LoopThreadFree(s)
    ensures var pushed := After(s, Push(LOOP_THREAD, f));
            After(pushed, Decide(LOOP_THREAD)).counter > 0
  {
  }

  // ---------------------------------------------------------------------------------------------
  // No wakeup too many
  // ---------------------------------------------------------------------------------------------

  function Min(a: nat, b: nat): nat { if a < b then a else b }

  /** The wakeup decisions since the eventfd was last read that are for writing to it: those of other
      threads, and the loop thread's own while it runs a batch. */
  function WakeupsSinceRead(run: seq<Step>): nat
    requires Legal(run)
  {
    if run == [] || run[|run| - 1].Drain? then 0
    else
      var before, step := run[..|run| - 1], run[|run| - 1];
      WakeupsSinceRead(before) +
      if step.Decide? && (step.thread != LOOP_THREAD || RunLoop(before).pc.Running?) then 1 else 0
  }

  /** The eventfd counts exactly those, up to the largest value it can take: a read empties it, and
      nothing but such a decision fills it. */
  lemma {:induction false} CounterIsWakeups(run: seq<Step>)
    requires Legal(run)
    ensures RunLoop(run).counter == Min(WakeupsSinceRead(run), COUNTER_MAX)
  {
    if run != [] {
      CounterIsWakeups(run[..|run| - 1]);
      QueueIsFifo(run[..|run| - 1]);
    }
  }

  /** The decisions of any kind since the eventfd was last read. */
  function DecisionsSinceRead(run: seq<Step>): nat {
    if run == [] || run[|run| - 1].Drain? then 0
    else DecisionsSinceRead(run[..|run| - 1]) + if run[|run| - 1].Decide? then 1 else 0
  }

  lemma {:induction false} CounterAtMostDecisions(run: seq<Step>)
    requires Legal(run)
    ensures RunLoop(run).counter <= DecisionsSinceRead(run)
  {
    if run != [] {
      CounterAtMostDecisions(run[..|run| - 1]);
    }
  }

  /** Whether poll has reported the wakeup channel and the eventfd has not been read since. */
  predicate ReadIsDue(run: seq<Step>) {
    run != [] &&
    match run[|run| - 1]
    case PollReturn(ready) => ready
    case Drain => false
    case _ => ReadIsDue(run[..|run| - 1])
  }

  /** A reported wakeup is read before the next batch begins. */
  lemma {:induction false} ReportedWakeupIsRead(run: seq<Step>)
    requires Legal(run)
    ensures ReadIsDue(run) <==> RunLoop(run).pc == Dispatching(true)
    ensures Enabled(RunLoop(run), BeginBatch) ==> !ReadIsDue(run)
  {
    if run != [] {
      ReportedWakeupIsRead(run[..|run| - 1]);
    }
  }

  /** A loop nobody has decided to wake since it last read the eventfd sleeps in poll: there is no
      spinning. */
  lemma QuietLoopSleeps(run: seq<Step>)
    requires Legal(run) && DecisionsSinceRead(run) == 0
    ensures !Enabled(RunLoop(run), PollReturn(true))
  {
    CounterAtMostDecisions(run);
  }
}
