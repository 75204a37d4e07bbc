/** net/Poller.cc: a dense pollfd array, a map of channels and the index that ties them. */
module Poller {
  import opened Sequences
  import opened Epoll

  datatype PollFd = PollFd(fd: int, events: Interest, revents: Revents)

  /** An ignored slot stores -fd-1, which is negative for every descriptor, 0 included. */
  function Decoded(fd: int): int {
    if fd < 0 then -fd - 1 else fd
  }

  /** Is the slot of a channel with this history of masks (first registration, then updates) being ignored? An
      update without interest hides the slot, and no update shows it again. */
  function Hidden(masks: seq<Interest>): bool {
    |masks| > 1 && (masks[|masks| - 1] == NOTHING || Hidden(masks[..|masks| - 1]))
  }

  /** Exactly when the slot listens if and only if the channel has interest: a channel without interest must have
      lost it by an update, and a channel with interest must never have been updated without. */
  lemma {:induction false} HiddenIsIdle(masks: seq<Interest>)
    requires masks != []
    ensures var last := masks[|masks| - 1];
            (Hidden(masks) <==> last == NOTHING)
            <==> if last == NOTHING then |masks| > 1 else NOTHING !in masks[1..]
  {
    HiddenSince(masks);
    if |masks| > 1 && masks[|masks| - 1] == NOTHING {
      assert masks[1..][|masks| - 2] == NOTHING;
    }
  }

  lemma {:induction false} HiddenSince(masks: seq<Interest>)
    requires masks != []
    ensures Hidden(masks) <==> NOTHING in masks[1..]
  {
    if |masks| > 1 {
      HiddenSince(masks[..|masks| - 1]);
      assert masks[1..] == masks[..|masks| - 1][1..] + [masks[|masks| - 1]];
    }
  }

  /** The slots with events, in slot order. */
  function Ready(slots: seq<PollFd>): seq<PollFd> {
    if slots == [] then []
    else
      var last := slots[|slots| - 1];
      Ready(slots[..|slots| - 1]) + if last.revents != NO_REVENTS then [last] else []
  }

  lemma {:induction false} ReadyGrows(slots: seq<PollFd>, k: nat)
    requires k <= |slots|
    ensures Ready(slots[..k]) <= Ready(slots) && Ready([]) == []
  {
    if k < |slots| {
      ReadyGrows(slots[..|slots| - 1], k);
      assert slots[..|slots| - 1][..k] == slots[..k];
    } else {
      assert slots[..k] == slots;
    }
  }

  /** `index` lists, in increasing order, exactly the slots with events, and Ready lists their contents. */
  ghost predicate Selects(slots: seq<PollFd>, index: seq<nat>) {
    && |index| == |Ready(slots)|
    && (forall k | 0 <= k < |index| :: index[k] < |slots| && Ready(slots)[k] == slots[index[k]]
                                       && slots[index[k]].revents != NO_REVENTS)
    && (forall j, k | 0 <= j < k < |index| :: index[j] < index[k])
    && (forall i | 0 <= i < |slots| && slots[i].revents != NO_REVENTS :: i in index)
  }

  lemma {:induction false} ReadySelects(slots: seq<PollFd>) returns (index: seq<nat>)
    ensures Selects(slots, index)
  {
    index := [];
    if slots != [] {
      var front := slots[..|slots| - 1];
      index := ReadySelects(front);
      assert forall i | 0 <= i < |front| :: front[i] == slots[i];
      if slots[|slots| - 1].revents != NO_REVENTS {
        index := index + [|slots| - 1];
      }
    }
  }

  lemma ReadySnoc(slots: seq<PollFd>, i: nat)
    requires i < |slots|
    ensures Ready(slots[..i + 1]) == Ready(slots[..i]) + if slots[i].revents != NO_REVENTS then [slots[i]] else []
  {
    assert slots[..i + 1][..i] == slots[..i];
  }

  /** The slot's sign and mask are what the history of its descriptor says. */
  ghost predicate SlotRecords(slot: PollFd, history: map<int, seq<Interest>>) {
    var fd := Decoded(slot.fd);
    && fd in history && history[fd] != []
    && (slot.fd < 0 <==> Hidden(history[fd])) && slot.events == history[fd][|history[fd]| - 1]
  }

  /** `at` is a bijection from the registered descriptors to the slots. */
  ghost predicate Placed(slots: seq<PollFd>, at: map<int, nat>) {
    && |slots| == |at|
    && (forall fd <- at :: fd >= 0 && at[fd] < |slots| && Decoded(slots[at[fd]].fd) == fd)
    && (forall i | 0 <= i < |slots| :: Decoded(slots[i].fd) in at && at[Decoded(slots[i].fd)] == i)
  }

  ghost predicate Recorded(slots: seq<PollFd>, history: map<int, seq<Interest>>) {
    forall i | 0 <= i < |slots| :: SlotRecords(slots[i], history)
  }

  ghost predicate Layout(slots: seq<PollFd>, at: map<int, nat>, history: map<int, seq<Interest>>) {
    Placed(slots, at) && Recorded(slots, history) && history.Keys == at.Keys
  }

  lemma PlacedAt(slots: seq<PollFd>, at: map<int, nat>, fd: int)
    requires Placed(slots, at) && fd in at
    ensures at[fd] < |slots| && Decoded(slots[at[fd]].fd) == fd
  {
  }

  lemma LayoutSlot(slots: seq<PollFd>, at: map<int, nat>, history: map<int, seq<Interest>>, i: nat)
    requires Layout(slots, at, history) && i < |slots|
    ensures Decoded(slots[i].fd) in at && at[Decoded(slots[i].fd)] == i
  {
  }

  lemma RegisterKeepsLayout(slots: seq<PollFd>, at: map<int, nat>, history: map<int, seq<Interest>>,
                            fd: int, mask: Interest)
    requires Layout(slots, at, history) && fd >= 0 && fd !in at
    ensures Layout(slots + [PollFd(fd, mask, NO_REVENTS)], at[fd := |slots|], history[fd := [mask]])
  {
  }

  /** The slot after an update; the sign is never given back. */
  function Refreshed(slot: PollFd, fd: int, mask: Interest): PollFd {
    PollFd(if mask == NOTHING then -fd - 1 else slot.fd, mask, NO_REVENTS)
  }

  lemma RefreshKeepsRecords(slots: seq<PollFd>, at: map<int, nat>, history: map<int, seq<Interest>>,
                            fd: int, mask: Interest)
    requires Layout(slots, at, history) && fd in at
    ensures Recorded(slots[at[fd] := Refreshed(slots[at[fd]], fd, mask)], history[fd := history[fd] + [mask]])
  {
    assert (history[fd] + [mask])[..|history[fd]|] == history[fd];
    forall k | 0 <= k < |slots| && k != at[fd]
      ensures Decoded(slots[k].fd) != fd
    {
    }
  }

  lemma RefreshKeepsLayout(slots: seq<PollFd>, at: map<int, nat>, history: map<int, seq<Interest>>,
                           fd: int, mask: Interest)
    requires Layout(slots, at, history) && fd in at
    ensures Layout(slots[at[fd] := Refreshed(slots[at[fd]], fd, mask)], at, history[fd := history[fd] + [mask]])
  {
    RefreshKeepsRecords(slots, at, history, fd, mask);
    hide Recorded;
  }

  /** The last slot moved into slot i, and the last slot dropped. */
  function SwapRemoved(slots: seq<PollFd>, i: nat): seq<PollFd>
    requires i < |slots|
  {
    slots[i := slots[|slots| - 1]][..|slots| - 1]
  }

  /** The slots and places once the last slot has moved into the hole. */
  lemma SwapRemoveKeepsPlaces(slots: seq<PollFd>, at: map<int, nat>, fd: int)
    requires Placed(slots, at) && fd in at
    ensures var n, i := |slots| - 1, at[fd];
            var moved := Decoded(slots[n].fd);
            && i <= n && moved in at && (moved == fd <==> i == n) && moved >= 0
            && Placed(SwapRemoved(slots, i), at[moved := i] - {fd})
            && forall k | 0 <= k < n :: Decoded(SwapRemoved(slots, i)[k].fd) != fd
  {
    var n, i := |slots| - 1, at[fd];
    var moved := Decoded(slots[n].fd);
    var less := at[moved := i] - {fd};
    assert less.Keys == at.Keys - {fd};
    assert |less.Keys| == |at.Keys| - 1;
    var rest := SwapRemoved(slots, i);
    forall k | 0 <= k < n
      ensures Decoded(rest[k].fd) in less && less[Decoded(rest[k].fd)] == k
    {
      if k != i {
        assert at[Decoded(slots[k].fd)] == k;
      }
    }
    hide Decoded;
  }

  lemma SwapRemoveKeepsRecords(slots: seq<PollFd>, history: map<int, seq<Interest>>, i: nat, fd: int)
    requires Recorded(slots, history) && i < |slots|
    requires forall k | 0 <= k < |slots| - 1 :: Decoded(SwapRemoved(slots, i)[k].fd) != fd
    ensures Recorded(SwapRemoved(slots, i), history - {fd})
  {
    var rest := SwapRemoved(slots, i);
    forall k | 0 <= k < |rest|
      ensures SlotRecords(rest[k], history - {fd})
    {
      assert SlotRecords(slots[if k == i then |slots| - 1 else k], history);
    }
  }

  /** Moving the last slot into the hole, and dropping the last slot. */
  lemma SwapRemoveKeepsLayout(slots: seq<PollFd>, at: map<int, nat>, history: map<int, seq<Interest>>, fd: int)
    requires Layout(slots, at, history) && fd in at
    ensures var n, i := |slots| - 1, at[fd];
            var moved := Decoded(slots[n].fd);
            && i <= n && moved in at && (moved == fd <==> i == n) && moved >= 0
            && Layout(SwapRemoved(slots, i), at[moved := i] - {fd}, history - {fd})
  {
    hide Placed, Recorded, Decoded;
    SwapRemoveKeepsPlaces(slots, at, fd);
    SwapRemoveKeepsRecords(slots, history, at[fd], fd);
  }

  class Poller {
    var pollfds: seq<PollFd>
    var channels: map<int, Channel>
    /** The masks each registered descriptor has had, and its channel's index. */
    ghost var history: map<int, seq<Interest>>
    ghost var at: map<int, nat>

    ghost predicate Valid()
      reads this, channels.Values
    {
      && Layout(pollfds, at, history) && channels.Keys == at.Keys
      && forall fd <- channels :: channels[fd].fd == fd && channels[fd].index == at[fd]
    }

    constructor ()
      ensures Valid() && channels == map[]
    {
      pollfds, channels, history, at := [], map[], map[], map[];
    }

    /** `updateChannel`, after the channel changed its mask. */
    method UpdateChannel(channel: Channel)
      requires Valid() && channel.fd >= 0
      requires if channel.index < 0 then channel.fd !in channels
               else channel.fd in channels && channels[channel.fd] == channel
      modifies this, channel`index
      ensures Valid() && channels == old(channels)[channel.fd := channel]
      ensures history == old(history)[channel.fd :=
                if old(channel.index) < 0 then [channel.events] else old(history)[channel.fd] + [channel.events]]
      ensures 0 <= channel.index < |pollfds| && pollfds[channel.index].events == channel.events
      ensures pollfds[channel.index].revents == NO_REVENTS
      ensures |pollfds| == |old(pollfds)| + (if old(channel.index) < 0 then 1 else 0)
      ensures forall i | 0 <= i < |old(pollfds)| && i != channel.index :: pollfds[i] == old(pollfds)[i]
    {
      hide Layout;
      if channel.index < 0 {
        RegisterKeepsLayout(pollfds, at, history, channel.fd, channel.events);
        pollfds := pollfds + [PollFd(channel.fd, channel.events, NO_REVENTS)];
        channel.index := |pollfds| - 1;
        channels := channels[channel.fd := channel];
        at := at[channel.fd := channel.index];
        history := history[channel.fd := [channel.events]];
      } else {
        Refresh(channel);
      }
    }

    method Refresh(channel: Channel)
      requires Valid() && channel.index >= 0 && channel.fd in channels && channels[channel.fd] == channel
      modifies this`pollfds, this`history
      ensures Valid()
      ensures history == old(history)[channel.fd := old(history)[channel.fd] + [channel.events]]
      ensures 0 <= channel.index < |pollfds| == |old(pollfds)|
      ensures pollfds[channel.index].events == channel.events && pollfds[channel.index].revents == NO_REVENTS
      ensures forall i | 0 <= i < |pollfds| && i != channel.index :: pollfds[i] == old(pollfds)[i]
    {
      hide Placed, Recorded;
      RefreshKeepsLayout(pollfds, at, history, channel.fd, channel.events);
      PlacedAt(pollfds, at, channel.fd);
      var idx := channel.index;
      var slot := pollfds[idx].(events := channel.events, revents := NO_REVENTS);
      if channel.events == NOTHING {
        slot := slot.(fd := -channel.fd - 1);
      }
      pollfds := pollfds[idx := slot];
      history := history[channel.fd := history[channel.fd] + [channel.events]];
    }

    /** `removeChannel`: the last slot takes the place of the removed one. The removed channel keeps its stale index,
        so `updateChannel` can never be called on it again. */
    method RemoveChannel(channel: Channel)
      requires Valid() && channel.fd in channels && channels[channel.fd] == channel
      requires pollfds[channel.index].fd == -channel.fd - 1 && pollfds[channel.index].events == channel.events
      modifies this, channels.Values`index
      ensures Valid() && channels == old(channels) - {channel.fd} && channel.index == old(channel.index) >= 0
      ensures history == old(history) - {channel.fd}
      ensures |pollfds| == |old(pollfds)| - 1
      ensures forall i | 0 <= i < |pollfds| ::
                pollfds[i] == old(pollfds)[if i == old(channel.index) then |pollfds| else i]
    {
      hide Layout;
      SwapRemoveKeepsLayout(pollfds, at, history, channel.fd);
      var idx, last := channel.index, |pollfds| - 1;
      ghost var moved := Decoded(pollfds[last].fd);
      at := at[moved := idx] - {channel.fd};
      history := history - {channel.fd};
      channels := channels - {channel.fd};
      if idx == last {
        pollfds := pollfds[..last];
      } else {
        var channelAtEnd := pollfds[last].fd;
        pollfds := pollfds[idx := pollfds[last]][last := pollfds[idx]];
        if channelAtEnd < 0 {
          channelAtEnd := -channelAtEnd - 1;
        }
        channels[channelAtEnd].index := idx;
        pollfds := pollfds[..last];
      }
    }

    /** The channel that is active for a slot, with the events of the slot. */
    ghost predicate ActiveFor(channel: Channel, slot: PollFd)
      reads this, channel
    {
      slot.fd in channels && channel == channels[slot.fd] && channel.revents == slot.revents
    }

    /** `fillActiveChannels`: the channels of the first `numEvents` slots with events, once each, in slot order. When
        `numEvents` counts all of them, as `poll` promises, the early exit loses none. */
    method FillActiveChannels(numEvents: nat) returns (active: seq<Channel>)
      requires Valid() && forall i | 0 <= i < |pollfds| :: pollfds[i].fd < 0 ==> pollfds[i].revents == NO_REVENTS
      modifies channels.Values`revents
      ensures |active| == if numEvents < |Ready(pollfds)| then numEvents else |Ready(pollfds)|
      ensures forall k | 0 <= k < |active| :: ActiveFor(active[k], Ready(pollfds)[k])
      ensures forall j, k | 0 <= j < k < |active| :: active[j] != active[k]
    {
      hide Layout, Ready;
      ReadyGrows(pollfds, 0);
      assert pollfds[..0] == [];
      active := [];
      var remaining, i := numEvents, 0;
      while i < |pollfds| && remaining > 0
        invariant i <= |pollfds| && remaining >= 0 && remaining + |active| == numEvents
        invariant |active| == |Ready(pollfds[..i])|
        invariant forall k | 0 <= k < |active| :: ActiveFor(active[k], Ready(pollfds[..i])[k])
        invariant forall j, k | 0 <= j < k < |active| :: active[j] != active[k]
        invariant forall k | 0 <= k < |active| :: active[k].index < i
      {
        var pfd := pollfds[i];
        ReadySnoc(pollfds, i);
        LayoutSlot(pollfds, at, history, i);
        if pfd.revents != NO_REVENTS {
          remaining := remaining - 1;
          var channel := channels[pfd.fd];
          assert channel.index == i;
          channel.revents := pfd.revents;
          active := active + [channel];
        }
        i := i + 1;
      }
      ReadyGrows(pollfds, i);
      assert |Ready(pollfds[..i])| <= |Ready(pollfds)|;
      if i == |pollfds| {
        assert pollfds[..i] == pollfds;
      }
    }
  }
}
