// The event loop object: src/net/EventLoop.cpp.  Each method is made of steps of LoopSpec, so its
// effect on the queue, the eventfd and the histories is the specified one.

module EventLoop {
  import opened LoopSpec

  /** One `queueInLoop`, by the loop's own thread or by another. */
  datatype Arrival = Arrival(caller: Thread, functor: Functor)

  function Functors(arrivals: seq<Arrival>): (fs: seq<Functor>)
    ensures |fs| == |arrivals|
  {
    if arrivals == [] then [] else Functors(arrivals[..|arrivals| - 1]) + [arrivals[|arrivals| - 1].functor]
  }

  /** What arrives while each functor of a batch runs, from it or from other threads. */
  type Traffic = nat -> seq<Arrival>

  /** What arrives while the first `n` functors run, in order. */
  function ArrivedDuring(traffic: Traffic, n: nat): seq<Functor> {
    if n == 0 then [] else ArrivedDuring(traffic, n - 1) + Functors(traffic(n - 1))
  }

  lemma FunctorsByOneMore(arrivals: seq<Arrival>, i: nat)
    requires i < |arrivals|
    ensures Functors(arrivals[..i + 1]) == Functors(arrivals[..i]) + [arrivals[i].functor]
  {
    assert arrivals[..i + 1][..i] == arrivals[..i];
  }

  class EventLoop {
    var pendingFunctors: seq<Functor>
    var callingPendingFunctors: bool
    var wakeupCounter: nat
    ghost var pc: Pc
    ghost var batch: seq<Functor>
    ghost var owing: set<Thread>
    ghost var queued: seq<Functor>
    ghost var executed: seq<Functor>

    ghost function View(): Loop
      reads this
    {
      Loop(pc, pendingFunctors, batch, callingPendingFunctors, wakeupCounter, owing, queued, executed)
    }

    ghost predicate Valid()
      reads this
    {
      Consistent(View())
    }

    constructor ()
      ensures Valid() && View() == START
    {
      pendingFunctors, callingPendingFunctors, wakeupCounter := [], false, 0;
      pc, batch, owing, queued, executed := NotLooping, [], {}, [], [];
    }

    /** The locked half of `queueInLoop`. */
    method PushFunctor(caller: Thread, cb: Functor)
      requires Valid() && Enabled(View(), Push(caller, cb))
      modifies this
      ensures Valid() && View() == After(old(View()), Push(caller, cb))
    {
      StepConsistent(View(), Push(caller, cb));
      pendingFunctors := pendingFunctors + [cb];
      queued := queued + [cb];
      owing := owing + {caller};
    }

    /** The unlocked half: the decision to wake the loop. */
    method WakeIfNeeded(caller: Thread)
      requires Valid() && Enabled(View(), Decide(caller))
      modifies this
      ensures Valid() && View() == After(old(View()), Decide(caller))
    {
      StepConsistent(View(), Decide(caller));
      if caller != LOOP_THREAD || callingPendingFunctors {
        Wakeup();
      }
      owing := owing - {caller};
    }

    /** A write of 1 to the eventfd; a full counter refuses it. */
    method Wakeup()
      modifies this`wakeupCounter
      ensures wakeupCounter == Woken(old(wakeupCounter))
    {
      if wakeupCounter < COUNTER_MAX {
        wakeupCounter := wakeupCounter + 1;
      }
    }

    method QueueInLoop(caller: Thread, cb: Functor)
      requires Valid() && Enabled(View(), Push(caller, cb))
      modifies this
      ensures Valid() && View() == After(After(old(View()), Push(caller, cb)), Decide(caller))
      ensures owing == old(owing)
      ensures caller != LOOP_THREAD || old(pc).Running? ==> wakeupCounter > 0
      ensures old(wakeupCounter) <= wakeupCounter <= old(wakeupCounter) + 1
    {
      PushFunctor(caller, cb);
      WakeIfNeeded(caller);
    }

    /** On the loop's own thread the functor runs at once, ahead of everything queued; `during` arrives
        while it does. */
    method RunInLoop(caller: Thread, cb: Functor, during: seq<Arrival>) returns (ranNow: bool)
      requires Valid() && Enabled(View(), Push(caller, cb))
      requires Admissible(during) && (caller == LOOP_THREAD ==> !pc.Polling?)
      modifies this
      ensures Valid() && (ranNow <==> caller == LOOP_THREAD)
      ensures ranNow ==> pendingFunctors == old(pendingFunctors) + Functors(during) && executed == old(executed)
      ensures !ranNow ==> View() == After(After(old(View()), Push(caller, cb)), Decide(caller))
    {
      ranNow := caller == LOOP_THREAD;
      if ranNow {
        QueueAll(during);
      } else {
        QueueInLoop(caller, cb);
      }
    }

    method HandleRead()
      requires Valid() && Enabled(View(), Step.Drain)
      modifies this`wakeupCounter, this`pc
      ensures Valid() && View() == After(old(View()), Step.Drain)
      ensures wakeupCounter == 0
    {
      StepConsistent(View(), Step.Drain);
      wakeupCounter := 0;
      pc := Dispatching(false);
    }

    /** No thread queues again before it has finished queueing. */
    ghost predicate Admissible(arrivals: seq<Arrival>)
      reads this
    {
      forall a <- arrivals :: a.caller !in owing
    }

    /** Several calls of queueInLoop, from any threads, one after another. */
    method QueueAll(arrivals: seq<Arrival>)
      requires Valid() && Admissible(arrivals) && !pc.Polling?
      modifies this
      ensures Valid() && owing == old(owing)
      ensures pc == old(pc) && batch == old(batch) && executed == old(executed)
      ensures pendingFunctors == old(pendingFunctors) + Functors(arrivals)
      ensures old(wakeupCounter) <= wakeupCounter <= old(wakeupCounter) + |arrivals|
      ensures old(pc).Running? && arrivals != [] ==> wakeupCounter > 0
    {
      for i := 0 to |arrivals|
        invariant Valid() && owing == old(owing)
        invariant pc == old(pc) && batch == old(batch) && executed == old(executed)
        invariant pendingFunctors == old(pendingFunctors) + Functors(arrivals[..i])
        invariant old(wakeupCounter) <= wakeupCounter <= old(wakeupCounter) + i
        invariant old(pc).Running? && i > 0 ==> wakeupCounter > 0
      {
        FunctorsByOneMore(arrivals, i);
        QueueInLoop(arrivals[i].caller, arrivals[i].functor);
      }
      assert arrivals[..|arrivals|] == arrivals;
    }

    method SwapBatch() returns (functors: seq<Functor>)
      requires Valid() && Enabled(View(), Step.BeginBatch)
      modifies this
      ensures Valid() && View() == After(old(View()), Step.BeginBatch)
      ensures functors == old(pendingFunctors)
    {
      StepConsistent(View(), Step.BeginBatch);
      callingPendingFunctors := true;
      functors := pendingFunctors;
      pendingFunctors := [];
      pc, batch := Running(0), functors;
    }

    method RunFunctor(functor: Functor, during: seq<Arrival>)
      requires Valid() && Enabled(View(), RunOne) && functor == batch[pc.pos] && Admissible(during)
      modifies this
      ensures Valid() && owing == old(owing)
      ensures pc == Running(old(pc).pos + 1) && batch == old(batch) && executed == old(executed) + [functor]
      ensures pendingFunctors == old(pendingFunctors) + Functors(during)
      ensures old(wakeupCounter) <= wakeupCounter <= old(wakeupCounter) + |during|
      ensures during != [] ==> wakeupCounter > 0
    {
      StepConsistent(View(), RunOne);
      executed := executed + [functor];
      pc := Running(pc.pos + 1);
      QueueAll(during);
    }

    method FinishBatch()
      requires Valid() && Enabled(View(), Step.EndBatch)
      modifies this
      ensures Valid() && View() == After(old(View()), Step.EndBatch)
    {
      StepConsistent(View(), Step.EndBatch);
      callingPendingFunctors := false;
      pc, batch := Polling, [];
    }

    /** Runs exactly the functors pending at the swap, in order.  Whatever is queued meanwhile, by these
        functors, by themselves again or by other threads, waits for the next call, with the eventfd
        readable. */
    method DoPendingFunctors(traffic: Traffic)
      requires Valid() && Enabled(View(), Step.BeginBatch)
      requires forall k: nat :: Admissible(traffic(k))
      modifies this
      ensures Valid() && pc == Polling && owing == old(owing)
      ensures executed == old(executed) + old(pendingFunctors)
      ensures pendingFunctors == ArrivedDuring(traffic, |old(pendingFunctors)|)
      ensures old(wakeupCounter) <= wakeupCounter <= old(wakeupCounter) + |pendingFunctors|
      ensures pendingFunctors != [] ==> wakeupCounter > 0
    {
      var functors := SwapBatch();
      for i := 0 to |functors|
        invariant Valid() && owing == old(owing)
        invariant pc == Running(i) && batch == functors
        invariant executed == old(executed) + functors[..i]
        invariant pendingFunctors == ArrivedDuring(traffic, i)
        invariant old(wakeupCounter) <= wakeupCounter <= old(wakeupCounter) + |pendingFunctors|
        invariant pendingFunctors != [] ==> wakeupCounter > 0
      {
        assert functors[..i + 1] == functors[..i] + [functors[i]];
        assert Admissible(traffic(i));
        RunFunctor(functors[i], traffic(i));
      }
      assert functors[..|functors|] == functors;
      FinishBatch();
    }

    /** Poll returns and the active channels are handled; `ready` says whether the wakeup channel is one
        of them, `handlers` what arrives meanwhile. */
    method Dispatch(ready: bool, handlers: seq<Arrival>)
      requires Valid() && Enabled(View(), PollReturn(ready)) && Admissible(handlers)
      modifies this
      ensures Valid() && pc == Dispatching(false) && owing == old(owing) && executed == old(executed)
      ensures pendingFunctors == old(pendingFunctors) + Functors(handlers)
      ensures wakeupCounter <= (if ready then 0 else old(wakeupCounter)) + |handlers|
    {
      StepConsistent(View(), PollReturn(ready));
      pc := Dispatching(ready);
      if ready {
        HandleRead();
      }
      QueueAll(handlers);
    }

    /** One turn of `loop`: poll, dispatch, pending functors.  Whatever was queued before the end of the
        dispatch has run by the end of the turn.  A reported wakeup is used up: the eventfd is readable
        again only for what arrived during the turn. */
    method LoopOnce(ready: bool, handlers: seq<Arrival>, traffic: Traffic)
      requires Valid() && Enabled(View(), PollReturn(ready))
      requires Admissible(handlers) && forall k: nat :: Admissible(traffic(k))
      modifies this
      ensures Valid() && pc == Polling && owing == old(owing)
      ensures executed == old(executed) + old(pendingFunctors) + Functors(handlers)
      ensures pendingFunctors == ArrivedDuring(traffic, |old(pendingFunctors)| + |handlers|)
      ensures pendingFunctors != [] ==> wakeupCounter > 0
      ensures wakeupCounter <= (if ready then 0 else old(wakeupCounter)) + |handlers| + |pendingFunctors|
      ensures ready && handlers == [] && pendingFunctors == [] ==> !Enabled(View(), PollReturn(true))
    {
      Dispatch(ready, handlers);
      DoPendingFunctors(traffic);
    }
  }
}
