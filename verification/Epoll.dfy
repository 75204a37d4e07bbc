/** net/Channel.h and net/Epoller.cc: interest masks, the index state machine and the kernel's interest set. */
module Epoll {
  import opened Sequences

  /** `events_`: POLLIN|POLLPRI and POLLOUT. */
  datatype Interest = Interest(read: bool, write: bool)

  const NOTHING := Interest(false, false)

  datatype Operation = Add | Mod | Del

  /** ADD wants the fd absent, MOD and DEL want it present. */
  predicate Legal(entry: Option<Interest>, op: Operation) {
    if op.Add? then entry.None? else entry.Some?
  }

  /** The kernel's entry for one fd after `epoll_ctl`; an illegal call is refused and leaves it alone. */
  function Controlled(entry: Option<Interest>, op: Operation, mask: Interest): Option<Interest> {
    if !Legal(entry, op) then entry else if op.Del? then None else Some(mask)
  }

  /** One channel as the four parties see it: `index_`, `events_`, `ChannelMap_`, the kernel. */
  datatype View = View(index: int, events: Interest, mapped: bool, kernel: Option<Interest>)

  const UNREGISTERED := View(-1, NOTHING, false, None)

  /** The agreement the reactor relies on between calls. */
  predicate Agrees(v: View) {
    && (v.index == -1 || v.index == 1 || v.index == 2)
    && (if v.index == 1 then v.kernel == Some(v.events) else v.kernel.None?)
    && (v.mapped <==> v.index != -1)
    && (v.index == 2 ==> v.events == NOTHING)
  }

  /** Agreement but for the mask and the lack of interest: what holds while a setter is at work. */
  predicate AgreesButMask(v: View) {
    && (v.index == -1 || v.index == 1 || v.index == 2)
    && (v.index == 1 <==> v.kernel.Some?)
    && (v.mapped <==> v.index != -1)
  }

  datatype Call = EnableReading | EnableWriting | DisableWriting | DisableAll | Remove

  function Masked(events: Interest, call: Call): Interest {
    match call
    case EnableReading => events.(read := true)
    case EnableWriting => events.(write := true)
    case DisableWriting => events.(write := false)
    case DisableAll => NOTHING
    case Remove => NOTHING
  }

  lemma MasksAre(events: Interest)
    ensures Masked(events, EnableReading) == Interest(true, events.write)
    ensures Masked(events, EnableWriting) == Interest(events.read, true)
    ensures Masked(events, DisableWriting) == Interest(events.read, false)
    ensures Masked(events, DisableAll) == Interest(false, false)
  {
  }

  /** The one operation `updateChannel` asks of the kernel. */
  function UpdateOperation(v: View): Operation {
    if v.index == -1 || v.index == 2 then Add else if v.events == NOTHING then Del else Mod
  }

  /** `updateChannel`. */
  function Updated(v: View): View {
    var op := UpdateOperation(v);
    View(if op.Del? then 2 else 1, v.events, v.mapped || v.index == -1, Controlled(v.kernel, op, v.events))
  }

  /** `removeChannel`, whose `disableAll` calls back into `updateChannel` and flips the index first. */
  function Removed(v: View): View {
    var flipped := Updated(v.(events := NOTHING));
    View(-1, NOTHING, false, if flipped.index == 1 then Controlled(flipped.kernel, Del, NOTHING) else flipped.kernel)
  }

  /** The asserts at the head of `removeChannel`. */
  predicate Allowed(v: View, call: Call) {
    call.Remove? ==> v.mapped && v.events == NOTHING
  }

  function Applied(v: View, call: Call): View {
    if call.Remove? then Removed(v) else Updated(v.(events := Masked(v.events, call)))
  }

  /** Every `epoll_ctl` a call makes, with the kernel entry it meets. */
  function ControlCalls(v: View, call: Call): seq<(Option<Interest>, Operation)> {
    var masked := v.(events := Masked(v.events, call));
    var first := [(v.kernel, UpdateOperation(masked))];
    if call.Remove? && Updated(masked).index == 1 then first + [(Updated(masked).kernel, Del)] else first
  }

  predicate AllLegal(calls: seq<(Option<Interest>, Operation)>) {
    forall c <- calls :: Legal(c.0, c.1)
  }

  lemma CallAgrees(v: View, call: Call)
    requires Agrees(v) && Allowed(v, call)
    ensures Agrees(Applied(v, call)) && AllLegal(ControlCalls(v, call))
    ensures call.Remove? ==> Applied(v, call) == UNREGISTERED
  {
  }

  /** `updateChannel`, branch by branch. */
  lemma UpdatedByStatus(v: View)
    requires AgreesButMask(v)
    ensures v.index == -1 || v.index == 2 ==> Updated(v) == View(1, v.events, true, Some(v.events))
    ensures v.index == 1 && v.events == NOTHING ==> Updated(v) == View(2, v.events, true, None)
    ensures v.index == 1 && v.events != NOTHING ==> Updated(v) == v.(kernel := Some(v.events))
  {
  }

  lemma UpdatedAgrees(v: View)
    requires AgreesButMask(v)
    ensures Agrees(Updated(v))
  {
  }

  /** A setter's whole effect, by where it finds the channel and the mask it leaves. */
  lemma SetterEffect(v: View, call: Call)
    requires Agrees(v) && !call.Remove?
    ensures var mask := Interest(
              call.EnableReading? || (v.events.read && !call.DisableAll?),
              call.EnableWriting? || (v.events.write && !call.DisableAll? && !call.DisableWriting?));
            Applied(v, call) ==
            if v.index == 1 && !mask.read && !mask.write then View(2, mask, true, None)
            else View(1, mask, true, Some(mask))
  {
  }

  /** The index is a toggle: an update without interest moves 1 to 2 and 2 to 1. */
  lemma DisableAllToggles(v: View)
    requires Agrees(v)
    ensures Applied(v, DisableAll).index == if v.index == 1 then 2 else 1
  {
  }

  /** A channel's history of calls, from construction; None once an assert failed. */
  function History(calls: seq<Call>): Option<View> {
    if calls == [] then Some(UNREGISTERED)
    else
      var before, call := History(calls[..|calls| - 1]), calls[|calls| - 1];
      if before.None? || !Allowed(before.value, call) then None else Some(Applied(before.value, call))
  }

  /** Over every history: agreement after each call, and no `epoll_ctl` is ever refused. */
  lemma {:induction false} HistoryAgrees(calls: seq<Call>, k: nat)
    requires History(calls).Some? && k < |calls|
    ensures Agrees(History(calls).value)
    ensures History(calls[..k]).Some? && Agrees(History(calls[..k]).value)
    ensures AllLegal(ControlCalls(History(calls[..k]).value, calls[k]))
  {
    var prefix := calls[..|calls| - 1];
    if prefix != [] {
      HistoryAgrees(prefix, if k < |prefix| then k else 0);
    }
    CallAgrees(History(prefix).value, calls[|calls| - 1]);
    if k < |prefix| {
      assert prefix[..k] == calls[..k];
    }
  }

  /** A history has no asserts to fail exactly when each `Remove` comes to a mapped channel without interest: the
      previous call is a `DisableAll`, or a `DisableWriting` that left nothing. */
  lemma RemoveNeedsDisableFirst(calls: seq<Call>)
    requires History(calls).Some?
    ensures History(calls + [Remove]).Some? <==>
            calls != [] && !calls[|calls| - 1].Remove? && History(calls).value.events == NOTHING
  {
    assert (calls + [Remove])[..|calls|] == calls;
    if calls != [] {
      HistoryAgrees(calls, 0);
    }
  }

  /** What the kernel reports about a descriptor. */
  datatype Revents = Revents(input: bool, pri: bool, rdhup: bool, output: bool, hup: bool, err: bool, nval: bool)

  const NO_REVENTS := Revents(false, false, false, false, false, false, false)

  datatype Registration = Registration(mask: Interest, channel: Channel)

  class Channel {
    const fd: int
    const epoller: Epoller
    var events: Interest
    var revents: Revents
    var index: int

    constructor (epoller: Epoller, fd: int)
      ensures this.epoller == epoller && this.fd == fd
      ensures index == -1 && events == NOTHING
    {
      this.epoller := epoller;
      this.fd := fd;
      events, revents, index := NOTHING, NO_REVENTS, -1;
    }

    predicate IsWriting()
      reads this
    {
      events.write
    }

    /** The setters: change the mask, then `update()`. */
    method Set(call: Call)
      requires epoller.Valid() && Agrees(epoller.ViewOf(this)) && !call.Remove?
      requires index == -1 ==> fd !in epoller.channelMap
      modifies this, epoller
      ensures epoller.Valid() && epoller.ViewOf(this) == old(Applied(epoller.ViewOf(this), call))
      ensures epoller.OthersKept(this, old(epoller.channelMap), old(epoller.kernel))
    {
      events := Masked(events, call);
      epoller.UpdateChannel(this);
    }
  }

  class Epoller {
    /** `ChannelMap_`, the kernel's set behind `epollfd_`, and the length of `epollEvents_`. */
    var channelMap: map<int, Channel>
    var kernel: map<int, Registration>
    var capacity: nat

    constructor ()
      ensures Valid() && channelMap == map[] && kernel == map[]
    {
      channelMap, kernel, capacity := map[], map[], 16;
    }

    ghost function ViewOf(channel: Channel): View
      reads this, channel
    {
      View(channel.index, channel.events,
           channel.fd in channelMap && channelMap[channel.fd] == channel,
           if channel.fd in kernel && kernel[channel.fd].channel == channel then Some(kernel[channel.fd].mask)
           else None)
    }

    ghost predicate ValidBut(exempt: Channel?)
      reads this, channelMap.Values
    {
      && capacity > 0
      && (forall fd <- channelMap :: channelMap[fd].fd == fd)
      && (forall fd <- kernel :: fd in channelMap && kernel[fd].channel == channelMap[fd])
      && (forall fd <- channelMap :: channelMap[fd] != exempt ==> Agrees(ViewOf(channelMap[fd])))
    }

    ghost predicate Valid()
      reads this, channelMap.Values
    {
      ValidBut(null)
    }

    ghost predicate OthersKept(channel: Channel, map0: map<int, Channel>, kernel0: map<int, Registration>)
      reads this
    {
      && channelMap - {channel.fd} == map0 - {channel.fd}
      && kernel - {channel.fd} == kernel0 - {channel.fd}
    }

    ghost function Entry(fd: int): Option<Interest>
      reads this
    {
      if fd in kernel then Some(kernel[fd].mask) else None
    }

    /** `epoll_ctl`, never called illegally; the channel is the `data.ptr`. */
    method Control(op: Operation, channel: Channel)
      requires Legal(Entry(channel.fd), op)
      modifies this`kernel
      ensures kernel == if op.Del? then old(kernel) - {channel.fd}
                        else old(kernel)[channel.fd := Registration(channel.events, channel)]
    {
      if op.Del? {
        kernel := kernel - {channel.fd};
      } else {
        kernel := kernel[channel.fd := Registration(channel.events, channel)];
      }
    }

    /** `poll`, for any reports the kernel can give: distinct registered fds, no more than the array holds. The
        active channels are the registered channels of those fds, once each and in order. */
    method Poll(reports: seq<(int, Revents)>) returns (active: seq<Channel>)
      requires Valid() && |reports| <= capacity
      requires forall r <- reports :: r.0 in kernel
      requires forall i, j | 0 <= i < j < |reports| :: reports[i].0 != reports[j].0
      modifies this`capacity, channelMap.Values`revents
      ensures Valid() && |active| == |reports| && capacity > |reports|
      ensures capacity == if |reports| == old(capacity) then 2 * old(capacity) else old(capacity)
      ensures forall i | 0 <= i < |reports| ::
                reports[i].0 in channelMap && active[i] == channelMap[reports[i].0] && active[i].revents == reports[i].1
      ensures forall i, j | 0 <= i < j < |active| :: active[i] != active[j]
    {
      active := [];
      for i := 0 to |reports|
        invariant Valid() && |active| == i && capacity == old(capacity)
        invariant forall k | 0 <= k < i ::
                    && reports[k].0 in channelMap && active[k] == channelMap[reports[k].0]
                    && active[k].revents == reports[k].1
      {
        var fd := reports[i].0;
        var channel := kernel[fd].channel;
        assert fd in channelMap && channel == channelMap[fd];
        assert forall k | 0 <= k < i :: active[k].fd != channel.fd;
        channel.revents := reports[i].1;
        active := active + [channel];
      }
      assert forall i, j | 0 <= i < j < |active| :: active[i].fd != active[j].fd;
      if capacity == |reports| {
        capacity := 2 * capacity;
      }
    }

    method UpdateChannel(channel: Channel)
      requires ValidBut(channel) && AgreesButMask(ViewOf(channel))
      requires channel.index == -1 ==> channel.fd !in channelMap
      modifies this, channel`index
      ensures Valid() && ViewOf(channel) == Updated(old(ViewOf(channel)))
      ensures channel.index != -1 && OthersKept(channel, old(channelMap), old(kernel))
      ensures forall fd <- channelMap :: channelMap[fd] == channel || fd in old(channelMap)
    {
      hide Agrees, Updated;
      UpdatedAgrees(ViewOf(channel));
      UpdatedByStatus(ViewOf(channel));
      var status := channel.index;
      if status == -1 || status == 2 {
        AddChannel(channel);
      } else if channel.events == NOTHING {
        Control(Del, channel);
        channel.index := 2;
      } else {
        Control(Mod, channel);
      }
    }

    /** The first branch of `updateChannel`: a channel that the kernel does not know. */
    method AddChannel(channel: Channel)
      requires ValidBut(channel) && AgreesButMask(ViewOf(channel)) && channel.index != 1
      requires channel.index == -1 ==> channel.fd !in channelMap
      modifies this, channel`index
      ensures Valid() && ViewOf(channel) == Updated(old(ViewOf(channel)))
      ensures channel.index == 1 && OthersKept(channel, old(channelMap), old(kernel))
      ensures forall fd <- channelMap :: channelMap[fd] == channel || fd in old(channelMap)
    {
      hide Agrees, Updated;
      UpdatedAgrees(ViewOf(channel));
      UpdatedByStatus(ViewOf(channel));
      if channel.index == -1 {
        channelMap := channelMap[channel.fd := channel];
      }
      channel.index := 1;
      Control(Add, channel);
    }

    /** `removeChannel`, through `disableAll` and back. */
    method RemoveChannel(channel: Channel)
      requires Valid() && channel.epoller == this && Agrees(ViewOf(channel))
      requires channel.fd in channelMap && channelMap[channel.fd] == channel && channel.events == NOTHING
      modifies this, channel
      ensures Valid() && ViewOf(channel) == Removed(old(ViewOf(channel))) == UNREGISTERED
      ensures OthersKept(channel, old(channelMap), old(kernel))
      ensures channel.fd !in channelMap && channel.fd !in kernel
    {
      var fd := channel.fd;
      channel.Set(DisableAll);
      channelMap := channelMap - {fd};
      if channel.index == 1 {
        Control(Del, channel);
      }
      channel.index := -1;
    }
  }
}
