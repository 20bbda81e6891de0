// Channels and the poller that owns their registrations: include/net/Channel.h,
// src/net/Channel.cpp and src/net/poller/EpollPoller.cpp.
//
// The kernel's interest list is a table of its own, changed only through `EpollCtl`, which refuses
// the calls epoll_ctl refuses.  `Table` puts the three parties side by side: what every live channel
// believes about itself, the poller's `channels_` map, and the kernel.

module EpollSpec {

  /** A set of epoll flags. */
  datatype Mask = Mask(pollIn: bool, pollPri: bool, pollOut: bool, pollHup: bool)

  const NONE_EVENT := Mask(false, false, false, false)

  datatype Index = New | Added | Deleted

  datatype InterestOp = EnableReading | DisableReading | EnableWriting | DisableWriting | DisableAll

  /** kReadEvent is EPOLLIN | EPOLLPRI, kWriteEvent is EPOLLOUT. */
  function Interest(events: Mask, op: InterestOp): Mask {
    match op
    case EnableReading => events.(pollIn := true, pollPri := true)
    case DisableReading => events.(pollIn := false, pollPri := false)
    case EnableWriting => events.(pollOut := true)
    case DisableWriting => events.(pollOut := false)
    case DisableAll => NONE_EVENT
  }

  predicate IsWriting(events: Mask) { events.pollOut }

  predicate IsReading(events: Mask) { events.pollIn || events.pollPri }

  // ---------------------------------------------------------------------------------------------
  // The kernel side
  // ---------------------------------------------------------------------------------------------

  datatype Ctl = CtlAdd | CtlMod | CtlDel

  /** epoll_ctl fails with EEXIST or ENOENT and then changes nothing. */
  predicate CtlAccepted(kernel: map<int, Mask>, op: Ctl, fd: int) {
    op.CtlAdd? <==> fd !in kernel
  }

  function KernelAfter(kernel: map<int, Mask>, op: Ctl, fd: int, mask: Mask): map<int, Mask> {
    if !CtlAccepted(kernel, op, fd) then kernel
    else if op.CtlDel? then kernel - {fd}
    else kernel[fd := mask]
  }

  // ---------------------------------------------------------------------------------------------
  // The three tables
  // ---------------------------------------------------------------------------------------------

  datatype Chan = Chan(events: Mask, index: Index)

  /** `chans` holds every live channel by descriptor, `channels` is the key set of the poller's map,
      and `errors` counts the epoll_ctl calls the kernel refused. */
  datatype Table = Table(chans: map<int, Chan>, channels: set<int>, kernel: map<int, Mask>, errors: nat)

  function Controlled(t: Table, op: Ctl, fd: int): Table
    requires fd in t.chans
  {
    t.(kernel := KernelAfter(t.kernel, op, fd, t.chans[fd].events),
       errors := t.errors + if CtlAccepted(t.kernel, op, fd) then 0 else 1)
  }

  function WithIndex(t: Table, fd: int, index: Index): Table
    requires fd in t.chans
  {
    t.(chans := t.chans[fd := t.chans[fd].(index := index)])
  }

  /** EpollPoller::updateChannel. */
  function Updated(t: Table, fd: int): Table
    requires fd in t.chans
  {
    var c := t.chans[fd];
    if !c.index.Added? then
      var listed := if c.index.New? then t.(channels := t.channels + {fd}) else t;
      Controlled(WithIndex(listed, fd, Added), CtlAdd, fd)
    else if c.events == NONE_EVENT then
      WithIndex(Controlled(t, CtlDel, fd), fd, Deleted)
    else
      Controlled(t, CtlMod, fd)
  }

  /** An interest change on a channel: the mask first, then the poller. */
  function Changed(t: Table, fd: int, op: InterestOp): Table
    requires fd in t.chans
  {
    var c := t.chans[fd];
    Updated(t.(chans := t.chans[fd := c.(events := Interest(c.events, op))]), fd)
  }

  /** The registration state an update leaves behind. */
  function IndexAfter(index: Index, quiet: bool): Index {
    if index.Added? && quiet then Deleted else Added
  }

  lemma ChangedChannel(t: Table, fd: int, op: InterestOp)
    requires fd in t.chans
    ensures var events := Interest(t.chans[fd].events, op);
            Changed(t, fd, op).chans[fd] == Chan(events, IndexAfter(t.chans[fd].index, events == NONE_EVENT))
  {
  }

  /** EpollPoller::removeChannel. */
  function Removed(t: Table, fd: int): Table
    requires fd in t.chans
  {
    var unlisted := t.(channels := t.channels - {fd});
    var quiet := if t.chans[fd].index.Added? then Controlled(unlisted, CtlDel, fd) else unlisted;
    WithIndex(quiet, fd, New)
  }

  function Opened(t: Table, fd: int): Table {
    t.(chans := t.chans[fd := Chan(NONE_EVENT, New)])
  }

  /** The channel object is destroyed and its descriptor closed, which drops it from the kernel; the
      poller is not told. */
  function Destroyed(t: Table, fd: int): Table {
    t.(chans := t.chans - {fd}, kernel := t.kernel - {fd})
  }

  /** The three parties tell the same story, and no epoll_ctl call has been refused. */
  ghost predicate Agrees(t: Table) {
    && t.errors == 0
    && t.channels <= t.chans.Keys
    && t.kernel.Keys <= t.chans.Keys
    && (forall fd <- t.chans :: fd in t.channels <==> !t.chans[fd].index.New?)
    && (forall fd <- t.chans :: fd in t.kernel <==> t.chans[fd].index.Added?)
    && (forall fd <- t.kernel :: t.kernel[fd] == t.chans[fd].events)
  }

  lemma ChangeKeepsAgreement(t: Table, fd: int, op: InterestOp)
    requires fd in t.chans && Agrees(t)
    ensures Agrees(Changed(t, fd, op))
  {
  }

  /** A channel is told apart from a registered one only by what its owner did to it: destroying it
      leaves the tables in agreement exactly when it had been removed (or never registered). */
  lemma DestroyKeepsAgreementIff(t: Table, fd: int)
    requires fd in t.chans && Agrees(t)
    ensures Agrees(Destroyed(t, fd)) <==> t.chans[fd].index.New?
  {
    var after := Destroyed(t, fd);
    if t.chans[fd].index.New? {
      assert forall other <- after.chans :: after.chans[other] == t.chans[other];
    } else {
      assert fd in after.channels && fd !in after.chans;
    }
  }

  /** Removal always returns a channel to the state of a fresh one, mask aside. */
  lemma RemoveKeepsAgreement(t: Table, fd: int)
    requires fd in t.chans && Agrees(t)
    ensures Agrees(Removed(t, fd)) && Removed(t, fd).chans[fd] == Chan(t.chans[fd].events, New)
  {
  }

  /** Disabling everything takes a registered channel out of the kernel; repeated on a channel that
      is already out, it puts the channel back with an empty mask. */
  lemma DisableAllTogglesRegistration(t: Table, fd: int)
    requires fd in t.chans && Agrees(t)
    ensures fd in Changed(t, fd, DisableAll).kernel <==> fd !in t.kernel
    ensures fd in Changed(t, fd, DisableAll).channels
  {
    var c := t.chans[fd];
  }

  // ---------------------------------------------------------------------------------------------
  // Whole runs
  // ---------------------------------------------------------------------------------------------

  datatype TableEvent = Open(fd: int) | Change(fd: int, op: InterestOp) | Remove(fd: int) | Destroy(fd: int)

  /** Descriptors of live channels are distinct; a channel is used only while it lives, and destroyed
      only after its owner removed it. */
  predicate Permitted(t: Table, e: TableEvent) {
    match e
    case Open(fd) => fd !in t.chans
    case Change(fd, _) => fd in t.chans
    case Remove(fd) => fd in t.chans
    case Destroy(fd) => fd in t.chans && t.chans[fd].index.New?
  }

  function TableAfter(t: Table, e: TableEvent): Table
    requires Permitted(t, e)
  {
    match e
    case Open(fd) => Opened(t, fd)
    case Change(fd, op) => Changed(t, fd, op)
    case Remove(fd) => Removed(t, fd)
    case Destroy(fd) => Destroyed(t, fd)
  }

  const EMPTY: Table := Table(map[], {}, map[], 0)

  predicate Legal(run: seq<TableEvent>)
    decreases |run|, 0
  {
    run == [] || (Legal(run[..|run| - 1]) && Permitted(RunTable(run[..|run| - 1]), run[|run| - 1]))
  }

  function RunTable(run: seq<TableEvent>): Table
    requires Legal(run)
    decreases |run|, 1
  {
    if run == [] then EMPTY else TableAfter(RunTable(run[..|run| - 1]), run[|run| - 1])
  }

  lemma {:induction false} RunAgrees(run: seq<TableEvent>)
    requires Legal(run)
    ensures Agrees(RunTable(run))
  {
    if run != [] {
      var before := RunTable(run[..|run| - 1]);
      RunAgrees(run[..|run| - 1]);
      match run[|run| - 1]
      case Open(_) =>
      case Change(fd, op) => ChangeKeepsAgreement(before, fd, op);
      case Remove(fd) => RemoveKeepsAgreement(before, fd);
      case Destroy(fd) => DestroyKeepsAgreementIff(before, fd);
    }
  }

  /** The interest changes made on a descriptor since its channel was constructed. */
  function OpsOn(run: seq<TableEvent>, fd: int): seq<InterestOp> {
    if run == [] || run[|run| - 1] == Open(fd) then []
    else
      var last := run[|run| - 1];
      OpsOn(run[..|run| - 1], fd) + if last.Change? && last.fd == fd then [last.op] else []
  }

  ghost predicate OnSince(ops: seq<InterestOp>, i: int, on: InterestOp, off: InterestOp) {
    && 0 <= i < |ops| && ops[i] == on
    && forall j | i < j < |ops| :: ops[j] != off && ops[j] != DisableAll
  }

  /** Switched on, and neither switched off nor disabled with everything else since. */
  ghost predicate LeftOn(ops: seq<InterestOp>, on: InterestOp, off: InterestOp) {
    exists i :: OnSince(ops, i, on, off)
  }

  lemma OnSinceStep(ops: seq<InterestOp>, op: InterestOp, i: int, on: InterestOp, off: InterestOp)
    requires on != off && on != DisableAll
    ensures OnSince(ops + [op], i, on, off) <==>
            if i == |ops| then op == on else op != off && op != DisableAll && OnSince(ops, i, on, off)
  {
    var all := ops + [op];
    assert all[|ops|] == op && forall j | 0 <= j < |ops| :: all[j] == ops[j];
  }

  lemma LeftOnStep(ops: seq<InterestOp>, op: InterestOp, on: InterestOp, off: InterestOp)
    requires on != off && on != DisableAll
    ensures LeftOn(ops + [op], on, off) <==>
            op == on || (op != off && op != DisableAll && LeftOn(ops, on, off))
  {
    forall i ensures OnSince(ops + [op], i, on, off) <==>
                     if i == |ops| then op == on else op != off && op != DisableAll && OnSince(ops, i, on, off) {
      OnSinceStep(ops, op, i, on, off);
    }
    assert op == on ==> OnSince(ops + [op], |ops|, on, off);
  }

  /** What a live channel listens for, in any run: input (and urgent data) exactly when reading was
      left on, output exactly when writing was left on, and never anything else. */
  lemma {:induction false} ListensForWhatWasAsked(run: seq<TableEvent>, fd: int)
    requires Legal(run) && fd in RunTable(run).chans
    ensures var reading := LeftOn(OpsOn(run, fd), EnableReading, DisableReading);
            var writing := LeftOn(OpsOn(run, fd), EnableWriting, DisableWriting);
            var events := RunTable(run).chans[fd].events;
            events == Mask(reading, reading, writing, false)
            && IsReading(events) == reading && IsWriting(events) == writing
  {
    var before, last := run[..|run| - 1], run[|run| - 1];
    if last != Open(fd) {
      ListensForWhatWasAsked(before, fd);
      if last.fd == fd && last.Change? {
        ChangedChannel(RunTable(before), fd, last.op);
        LeftOnStep(OpsOn(before, fd), last.op, EnableReading, DisableReading);
        LeftOnStep(OpsOn(before, fd), last.op, EnableWriting, DisableWriting);
      } else {
        assert RunTable(run).chans[fd].events == RunTable(before).chans[fd].events;
        assert OpsOn(run, fd) == OpsOn(before, fd);
      }
    }
  }

  /** And the kernel listens for just that. */
  lemma KernelListensForIt(run: seq<TableEvent>, fd: int)
    requires Legal(run) && fd in RunTable(run).kernel
    ensures fd in RunTable(run).chans
    ensures RunTable(run).kernel[fd].pollIn <==> LeftOn(OpsOn(run, fd), EnableReading, DisableReading)
    ensures RunTable(run).kernel[fd].pollOut <==> LeftOn(OpsOn(run, fd), EnableWriting, DisableWriting)
  {
    RunAgrees(run);
    ListensForWhatWasAsked(run, fd);
  }
}

module Epoll {
  import opened EpollSpec

  class Channel {
    const fd: int
    const poller: EpollPoller
    var events: Mask
    var revents: Mask
    var index: Index

    /** The poller knows this channel as the live one for its descriptor. */
    ghost predicate Attached()
      reads this, poller
    {
      && fd in poller.registry && poller.registry[fd] == this
      && fd in poller.chans && poller.chans[fd] == Chan(events, index)
    }

    constructor (poller: EpollPoller, fd: int)
      requires poller.Valid() && fd !in poller.registry
      modifies poller`registry, poller`chans
      ensures this.fd == fd && this.poller == poller && events == revents == NONE_EVENT
      ensures poller.registry == old(poller.registry)[fd := this] && Attached()
      ensures poller.Valid() && poller.View() == Opened(old(poller.View()), fd)
    {
      this.fd := fd;
      this.poller := poller;
      events, revents, index := NONE_EVENT, NONE_EVENT, New;
      new;
      poller.registry := poller.registry[fd := this];
      poller.chans := poller.chans[fd := Chan(NONE_EVENT, New)];
    }

    method SetInterest(op: InterestOp)
      requires poller.Valid() && Attached()
      modifies this`events, this`index, poller`chans, poller`channels, poller`kernel, poller`errors
      ensures poller.Valid() && Attached()
      ensures events == Interest(old(events), op)
      ensures poller.View() == Changed(old(poller.View()), fd, op)
    {
      ChangeKeepsAgreement(poller.View(), fd, op);
      events := Interest(events, op);
      poller.chans := poller.chans[fd := Chan(events, index)];
      poller.UpdateChannel(this);
    }

    method EnableReading()
      requires poller.Valid() && Attached()
      modifies this`events, this`index, poller`chans, poller`channels, poller`kernel, poller`errors
      ensures poller.Valid() && Attached()
      ensures events == Interest(old(events), InterestOp.EnableReading)
      ensures poller.View() == Changed(old(poller.View()), fd, InterestOp.EnableReading)
    {
      SetInterest(InterestOp.EnableReading);
    }

    method EnableWriting()
      requires poller.Valid() && Attached()
      modifies this`events, this`index, poller`chans, poller`channels, poller`kernel, poller`errors
      ensures poller.Valid() && Attached()
      ensures events == Interest(old(events), InterestOp.EnableWriting)
      ensures poller.View() == Changed(old(poller.View()), fd, InterestOp.EnableWriting)
    {
      SetInterest(InterestOp.EnableWriting);
    }

    method DisableWriting()
      requires poller.Valid() && Attached()
      modifies this`events, this`index, poller`chans, poller`channels, poller`kernel, poller`errors
      ensures poller.Valid() && Attached()
      ensures events == Interest(old(events), InterestOp.DisableWriting)
      ensures poller.View() == Changed(old(poller.View()), fd, InterestOp.DisableWriting)
    {
      SetInterest(InterestOp.DisableWriting);
    }

    method DisableAll()
      requires poller.Valid() && Attached()
      modifies this`events, this`index, poller`chans, poller`channels, poller`kernel, poller`errors
      ensures poller.Valid() && Attached()
      ensures events == NONE_EVENT
      ensures poller.View() == Changed(old(poller.View()), fd, InterestOp.DisableAll)
    {
      SetInterest(InterestOp.DisableAll);
    }

    method Remove()
      requires poller.Valid() && Attached()
      modifies this`index, poller`chans, poller`channels, poller`kernel, poller`errors
      ensures poller.Valid() && Attached()
      ensures index == New
      ensures poller.View() == Removed(old(poller.View()), fd)
    {
      RemoveKeepsAgreement(poller.View(), fd);
      poller.RemoveChannel(this);
    }
  }

  /** One entry of the kernel's interest list; `data.ptr` is the channel. */
  datatype Registration = Registration(mask: Mask, channel: Channel)

  class EpollPoller {
    var channels: map<int, Channel>
    var kernel: map<int, Registration>
    var errors: nat
    var eventCapacity: nat
    ghost var registry: map<int, Channel>   // the live channels
    ghost var chans: map<int, Chan>         // and what each of them says about itself

    ghost function View(): Table
      reads this
    {
      Table(chans, channels.Keys, map fd | fd in kernel :: kernel[fd].mask, errors)
    }

    /** Every pointer held by the map or by the kernel is the live channel of that descriptor. */
    ghost predicate PointsToLive()
      reads this
    {
      && registry.Keys == chans.Keys
      && (forall fd <- registry :: registry[fd].fd == fd && registry[fd].poller == this)
      && (forall fd <- channels :: fd in registry && channels[fd] == registry[fd])
      && (forall fd <- kernel :: fd in registry && kernel[fd].channel == registry[fd])
    }

    ghost predicate Valid()
      reads this
    {
      PointsToLive() && Agrees(View()) && 0 < eventCapacity
    }

    constructor ()
      ensures Valid() && View() == EMPTY && registry == map[]
    {
      channels, kernel, errors, eventCapacity := map[], map[], 0, 16;
      registry, chans := map[], map[];
    }

    /** EpollPoller::update with the kernel's answer; a refusal is only logged. */
    method Update(op: Ctl, channel: Channel)
      requires PointsToLive() && channel.poller == this && channel.Attached()
      modifies this`kernel, this`errors
      ensures PointsToLive()
      ensures View() == Controlled(old(View()), op, channel.fd)
    {
      var fd := channel.fd;
      if op.CtlAdd? <==> fd !in kernel {
        if op.CtlDel? {
          kernel := kernel - {fd};
        } else {
          kernel := kernel[fd := Registration(channel.events, channel)];
        }
      } else {
        errors := errors + 1;
      }
      assert View().kernel == Controlled(old(View()), op, fd).kernel;
    }

    method SetIndex(channel: Channel, index: Index)
      requires PointsToLive() && channel.poller == this && channel.Attached()
      modifies channel`index, this`chans
      ensures PointsToLive() && channel.Attached() && channel.index == index
      ensures View() == WithIndex(old(View()), channel.fd, index)
    {
      channel.index := index;
      chans := chans[channel.fd := Chan(channel.events, index)];
    }

    method UpdateChannel(channel: Channel)
      requires PointsToLive() && channel.poller == this && channel.Attached()
      modifies this`chans, this`channels, this`kernel, this`errors, channel`index
      ensures PointsToLive() && channel.Attached()
      ensures View() == Updated(old(View()), channel.fd)
    {
      var index := channel.index;
      if index == New || index == Deleted {
        if index == New {
          channels := channels[channel.fd := channel];
        }
        SetIndex(channel, Added);
        Update(CtlAdd, channel);
      } else {
        if channel.events == NONE_EVENT {
          Update(CtlDel, channel);
          SetIndex(channel, Deleted);
        } else {
          Update(CtlMod, channel);
        }
      }
    }

    method RemoveChannel(channel: Channel)
      requires PointsToLive() && channel.poller == this && channel.Attached()
      modifies this`chans, this`channels, this`kernel, this`errors, channel`index
      ensures PointsToLive() && channel.Attached() && channel.index == New
      ensures View() == Removed(old(View()), channel.fd)
    {
      channels := channels - {channel.fd};
      var index := channel.index;
      if index == Added {
        Update(CtlDel, channel);
      }
      SetIndex(channel, New);
    }

    ghost predicate IsReady(entry: (int, Mask), channel: Channel)
      reads this, channel
    {
      entry.0 in registry && channel == registry[entry.0] && channel.revents == entry.1
    }

    method FillActiveChannels(ready: seq<(int, Mask)>) returns (active: seq<Channel>)
      requires Valid()
      requires forall i :: 0 <= i < |ready| ==> ready[i].0 in kernel
      requires forall i, j :: 0 <= i < j < |ready| ==> ready[i].0 != ready[j].0
      modifies registry.Values`revents
      ensures |active| == |ready|
      ensures forall i :: 0 <= i < |ready| ==> IsReady(ready[i], active[i])
    {
      active := [];
      for i := 0 to |ready|
        modifies registry.Values`revents
        invariant |active| == i
        invariant forall k :: 0 <= k < i ==> IsReady(ready[k], active[k])
      {
        var fd := ready[i].0;
        assert fd in kernel && fd in registry;
        var channel := kernel[fd].channel;
        assert forall k :: 0 <= k < i ==> active[k].fd == ready[k].0;
        channel.revents := ready[i].1;
        active := active + [channel];
      }
    }

    /** epoll_wait reports some registered descriptors, each at most once and no more than the event
        array holds; the active list is filled in that order. */
    method Poll(ready: seq<(int, Mask)>) returns (active: seq<Channel>)
      requires Valid() && |ready| <= eventCapacity
      requires forall i :: 0 <= i < |ready| ==> ready[i].0 in kernel
      requires forall i, j :: 0 <= i < j < |ready| ==> ready[i].0 != ready[j].0
      modifies this`eventCapacity, registry.Values`revents
      ensures Valid()
      ensures |active| == |ready|
      ensures forall i :: 0 <= i < |ready| ==> IsReady(ready[i], active[i])
      ensures eventCapacity == if |ready| == old(eventCapacity) then 2 * old(eventCapacity) else old(eventCapacity)
    {
      active := FillActiveChannels(ready);
      if |ready| == eventCapacity {
        eventCapacity := 2 * eventCapacity;
      }
    }
  }
}
