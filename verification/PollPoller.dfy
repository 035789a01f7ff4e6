/**
 suduo/net/poller/PollPoller.cpp: a dense array of slots with swap-remove.

 `Table` is the array and the slot index each channel remembers.  It stands for a map from
 descriptors to interests; an empty interest keeps its slot, with the descriptor encoded as
 a negative number that `poll` ignores.
 */
module PollPollers {
  import opened Channels

  datatype PollFd = PollFd(fd: int, events: Interest, revents: nat)

  datatype Table = Table(slots: seq<PollFd>, index: map<int, int>)

  const EMPTY := Table([], map[])

  function Owner(fd: int): int {
    if fd < 0 then -fd - 1 else fd
  }

  ghost predicate Inv(t: Table) {
    && (forall fd <- t.index ::
          fd >= 0 && 0 <= t.index[fd] < |t.slots| && Owner(t.slots[t.index[fd]].fd) == fd)
    && (forall i :: 0 <= i < |t.slots| ==>
          && Owner(t.slots[i].fd) in t.index
          && t.index[Owner(t.slots[i].fd)] == i
          && (t.slots[i].fd >= 0 <==> t.slots[i].events != NONE))
  }

  /** The abstract value. */
  ghost function Interests(t: Table): map<int, Interest>
    requires Inv(t)
  {
    map fd | fd in t.index :: t.slots[t.index[fd]].events
  }

  function Slot(fd: int, events: Interest): PollFd {
    PollFd(if events == NONE then -fd - 1 else fd, events, 0)
  }

  /** The first update pushes a slot with the plain descriptor; so it must ask for something. */
  ghost predicate MayUpdate(t: Table, fd: int, events: Interest) {
    fd >= 0 && (fd !in t.index ==> events != NONE)
  }

  function Updated(t: Table, fd: int, events: Interest): Table
    requires fd in t.index ==> 0 <= t.index[fd] < |t.slots|
  {
    if fd !in t.index then
      Table(t.slots + [PollFd(fd, events, 0)], t.index[fd := |t.slots|])
    else t.(slots := t.slots[t.index[fd] := Slot(fd, events)])
  }

  function Removed(t: Table, fd: int): Table
    requires fd in t.index && 0 <= t.index[fd] < |t.slots|
  {
    var idx, last := t.index[fd], |t.slots| - 1;
    if idx == last then Table(t.slots[..last], t.index - {fd})
    else
      Table(t.slots[idx := t.slots[last]][..last], (t.index - {fd})[Owner(t.slots[last].fd) := idx])
  }

  /** The condition on first updates is exact: an empty one would be polled for. */
  lemma UpdateKeepsInvIff(t: Table, fd: int, events: Interest)
    requires Inv(t) && fd >= 0
    ensures Inv(Updated(t, fd, events)) <==> MayUpdate(t, fd, events)
  {
    var u := Updated(t, fd, events);
    if fd !in t.index && events == NONE {
      assert u.slots[|t.slots|] == PollFd(fd, events, 0);
    }
  }

  lemma SlotsApart(t: Table, a: int, b: int)
    requires Inv(t) && a in t.index && b in t.index && a != b
    ensures t.index[a] != t.index[b]
  {
  }

  /** An update files the channel's interest and touches no other. */
  lemma UpdateRefines(t: Table, fd: int, events: Interest)
    requires Inv(t) && MayUpdate(t, fd, events)
    ensures Inv(Updated(t, fd, events))
    ensures Interests(Updated(t, fd, events)) == Interests(t)[fd := events]
  {
    UpdateKeepsInvIff(t, fd, events);
    var u := Updated(t, fd, events);
    assert u.index.Keys == t.index.Keys + {fd};
    forall x | x in u.index ensures Interests(u)[x] == Interests(t)[fd := events][x] {
      if x != fd && fd in t.index {
        SlotsApart(t, x, fd);
      }
    }
  }

  lemma RemoveKeepsInv(t: Table, fd: int)
    requires Inv(t) && fd in t.index
    ensures Inv(Removed(t, fd))
  {
    var r, idx, last := Removed(t, fd), t.index[fd], |t.slots| - 1;
    assert forall i :: 0 <= i < last ==> r.slots[i] == if i == idx then t.slots[last] else t.slots[i];
  }

  /** Swap-remove forgets the removed descriptor and nothing else. */
  lemma RemoveRefines(t: Table, fd: int)
    requires Inv(t) && fd in t.index
    ensures Inv(Removed(t, fd))
    ensures Interests(Removed(t, fd)) == Interests(t) - {fd}
  {
    RemoveKeepsInv(t, fd);
    var r, idx, last := Removed(t, fd), t.index[fd], |t.slots| - 1;
    assert Owner(t.slots[last].fd) in t.index;
    assert r.index.Keys == t.index.Keys - {fd};
    forall x | x in r.index ensures Interests(r)[x] == Interests(t)[x] {
      SlotsApart(t, x, fd);
      assert r.slots[r.index[x]] == t.slots[t.index[x]];
    }
  }

  /** The slots that `poll` looks at are exactly the nonempty interests. */
  lemma WatchedExactly(t: Table, fd: int, events: Interest)
    requires Inv(t)
    ensures (exists i :: 0 <= i < |t.slots| && t.slots[i].fd == fd >= 0 && t.slots[i].events == events)
      <==> (fd in Interests(t) && Interests(t)[fd] == events && events != NONE)
  {
    if fd in t.index && t.slots[t.index[fd]].events == events && events != NONE {
      assert t.slots[t.index[fd]].fd == fd;
    }
  }

  // Runs of updates and removals.

  datatype Change = Update(fd: int, events: Interest) | Remove(fd: int)

  /** A removal is asked for a registered channel whose mask is empty. */
  ghost predicate MayChange(m: map<int, Interest>, c: Change) {
    match c
    case Update(fd, events) => fd >= 0 && (fd !in m ==> events != NONE)
    case Remove(fd) => fd in m && m[fd] == NONE
  }

  function ChangedMap(m: map<int, Interest>, c: Change): map<int, Interest> {
    match c
    case Update(fd, events) => m[fd := events]
    case Remove(fd) => m - {fd}
  }

  ghost predicate IsRun(m: map<int, Interest>, changes: seq<Change>)
    decreases |changes|
  {
    changes == [] || (MayChange(m, changes[0]) && IsRun(ChangedMap(m, changes[0]), changes[1..]))
  }

  function AfterMap(m: map<int, Interest>, changes: seq<Change>): map<int, Interest>
    decreases |changes|
  {
    if changes == [] then m else AfterMap(ChangedMap(m, changes[0]), changes[1..])
  }

  ghost function Changed(t: Table, c: Change): Table
    requires Inv(t) && MayChange(Interests(t), c)
  {
    match c
    case Update(fd, events) => Updated(t, fd, events)
    case Remove(fd) => Removed(t, fd)
  }

  lemma ChangeRefines(t: Table, c: Change)
    requires Inv(t) && MayChange(Interests(t), c)
    ensures Inv(Changed(t, c)) && Interests(Changed(t, c)) == ChangedMap(Interests(t), c)
  {
    hide Updated, Removed;
    match c
    case Update(fd, events) => UpdateRefines(t, fd, events);
    case Remove(fd) => RemoveRefines(t, fd);
  }

  ghost function After(t: Table, changes: seq<Change>): (r: Table)
    requires Inv(t) && IsRun(Interests(t), changes)
    decreases |changes|
  {
    if changes == [] then t
    else
      ChangeRefines(t, changes[0]);
      After(Changed(t, changes[0]), changes[1..])
  }

  /** Every legal run of updates and swap-removes acts on the table as on the plain map. */
  lemma {:induction false} RunRefines(t: Table, changes: seq<Change>)
    requires Inv(t) && IsRun(Interests(t), changes)
    ensures Inv(After(t, changes))
    ensures Interests(After(t, changes)) == AfterMap(Interests(t), changes)
    decreases |changes|
  {
    hide Inv, Interests, Changed, MayChange;
    if changes != [] {
      ChangeRefines(t, changes[0]);
      RunRefines(Changed(t, changes[0]), changes[1..]);
    }
  }

  // The active channels of one poll.

  /** The descriptors of the first `n` slots with events, in slot order. */
  function ReadyFds(slots: seq<PollFd>, n: nat): seq<int> {
    if slots == [] || n == 0 then []
    else if slots[0].revents > 0 then [slots[0].fd] + ReadyFds(slots[1..], n - 1)
    else ReadyFds(slots[1..], n)
  }

  function ReadyCount(slots: seq<PollFd>): nat {
    if slots == [] then 0 else (if slots[0].revents > 0 then 1 else 0) + ReadyCount(slots[1..])
  }

  /** `poll` reports nothing for the slots it ignores. */
  predicate KernelFilled(slots: seq<PollFd>) {
    forall i :: 0 <= i < |slots| && slots[i].fd < 0 ==> slots[i].revents == 0
  }

  lemma {:induction false} ReadyMembers(slots: seq<PollFd>, fd: int)
    ensures fd in ReadyFds(slots, ReadyCount(slots))
      <==> exists i :: 0 <= i < |slots| && slots[i].fd == fd && slots[i].revents > 0
    ensures |ReadyFds(slots, ReadyCount(slots))| == ReadyCount(slots)
    decreases |slots|
  {
    if slots != [] {
      var more := slots[1..];
      ReadyMembers(more, fd);
      if exists i :: 0 <= i < |slots| && slots[i].fd == fd && slots[i].revents > 0 {
        var i :| 0 <= i < |slots| && slots[i].fd == fd && slots[i].revents > 0;
        assert i > 0 ==> more[i - 1] == slots[i];
      }
      if exists i :: 0 <= i < |more| && more[i].fd == fd && more[i].revents > 0 {
        var i :| 0 <= i < |more| && more[i].fd == fd && more[i].revents > 0;
        assert slots[i + 1] == more[i];
      }
      assert ReadyCount(slots) == 0 ==> ReadyCount(more) == 0 && ReadyFds(more, 0) == [];
    }
  }

  lemma {:induction false} ReadyDistinct(slots: seq<PollFd>)
    requires forall i, j :: 0 <= i < j < |slots| ==> slots[i].fd != slots[j].fd
    ensures var r := ReadyFds(slots, ReadyCount(slots));
      forall i, j :: 0 <= i < j < |r| ==> r[i] != r[j]
    decreases |slots|
  {
    if slots != [] {
      var more := slots[1..];
      ReadyDistinct(more);
      ReadyMembers(more, slots[0].fd);
      var r := ReadyFds(more, ReadyCount(more));
      assert slots[0].fd !in r;
      if slots[0].revents > 0 {
        assert ReadyFds(slots, ReadyCount(slots)) == [slots[0].fd] + r;
      } else if ReadyCount(slots) == 0 {
        assert ReadyFds(slots, 0) == [];
      }
    }
  }

  /**
   When the event count is the number of slots with events, each ready registered descriptor
   is reported exactly once, and nothing else is.
   */
  lemma ReportsEachReadyOnce(t: Table)
    requires Inv(t) && KernelFilled(t.slots)
    ensures var r := ReadyFds(t.slots, ReadyCount(t.slots));
      && (forall i, j :: 0 <= i < j < |r| ==> r[i] != r[j])
      && (forall fd :: fd in r <==> fd in t.index && t.slots[t.index[fd]].revents > 0)
  {
    hide ReadyFds, ReadyCount;
    forall i, j | 0 <= i < j < |t.slots| ensures t.slots[i].fd != t.slots[j].fd {
      assert t.index[Owner(t.slots[i].fd)] == i && t.index[Owner(t.slots[j].fd)] == j;
    }
    ReadyDistinct(t.slots);
    var r := ReadyFds(t.slots, ReadyCount(t.slots));
    forall fd ensures fd in r <==> fd in t.index && t.slots[t.index[fd]].revents > 0 {
      ReadyMembers(t.slots, fd);
      if fd in t.index && t.slots[t.index[fd]].revents > 0 {
        assert t.slots[t.index[fd]].fd == fd;
      }
    }
  }

  /** The poller object. */
  class PollPoller {
    var pollFds: seq<PollFd>
    var channels: map<int, Channel>

    /** Each channel is filed under its descriptor. */
    ghost predicate Filed()
      reads this
    {
      forall fd <- channels :: channels[fd].fd == fd
    }

    ghost function T(): Table
      reads this, channels.Values`index
    {
      Table(pollFds, map fd | fd in channels :: channels[fd].index)
    }

    ghost predicate Valid()
      reads this, channels.Values`index
    {
      Filed() && Inv(T())
    }

    /** A slot with events belongs to the channel that remembers it. */
    ghost predicate Slotted()
      reads this, channels.Values`index
    {
      forall i :: 0 <= i < |pollFds| && pollFds[i].fd >= 0 ==>
        pollFds[i].fd in channels && channels[pollFds[i].fd].index == i
    }

    lemma ValidSlotted()
      requires Valid()
      ensures Slotted()
    {
      forall i | 0 <= i < |pollFds| && pollFds[i].fd >= 0
        ensures pollFds[i].fd in channels && channels[pollFds[i].fd].index == i
      {
        assert Owner(pollFds[i].fd) in T().index;
      }
    }

    constructor ()
      ensures Valid() && T() == EMPTY
    {
      pollFds, channels := [], map[];
      new;
      assert T().index == map[];
    }

    method UpdateChannel(channel: Channel)
      requires Valid() && MayUpdate(T(), channel.fd, channel.events)
      requires channel.index < 0 ==> channel.fd !in channels && channel !in channels.Values
      requires channel.index >= 0 ==> channel.fd in channels && channels[channel.fd] == channel
      modifies this, channel`index
      ensures Valid()
      ensures T() == Updated(old(T()), channel.fd, channel.events)
      ensures channels == old(channels)[channel.fd := channel]
    {
      UpdateRefines(T(), channel.fd, channel.events);
      ghost var goal := Updated(T(), channel.fd, channel.events);
      if channel.index < 0 {
        pollFds := pollFds + [PollFd(channel.fd, channel.events, 0)];
        channel.index := |pollFds| - 1;
        channels := channels[channel.fd := channel];
      } else {
        var idx := channel.index;
        assert T().index[channel.fd] == idx;
        var pfd := PollFd(channel.fd, channel.events, 0);
        if channel.events == NONE {
          pfd := pfd.(fd := -(channel.fd as int) - 1);
        }
        pollFds := pollFds[idx := pfd];
        assert channels == channels[channel.fd := channel];
      }
      assert T().index == goal.index;
    }

    /** A channel rewrites its mask and updates the poller: its own interest changes, and no other. */
    method Follow(channel: Channel, ask: Ask)
      requires Valid() && MayUpdate(T(), channel.fd, Asked(channel.events, ask))
      requires channel.index < 0 ==> channel.fd !in channels && channel !in channels.Values
      requires channel.index >= 0 ==> channel.fd in channels && channels[channel.fd] == channel
      modifies this, channel
      ensures Valid() && channels == old(channels)[channel.fd := channel]
      ensures channel.events == Asked(old(channel.events), ask)
      ensures Interests(T()) == old(Interests(T()))[channel.fd := channel.events]
    {
      UpdateRefines(T(), channel.fd, Asked(channel.events, ask));
      channel.Rewrite(ask);
      UpdateChannel(channel);
    }

    method RemoveChannel(channel: Channel)
      requires Valid() && channel.fd in channels && channels[channel.fd] == channel
      requires channel.events == NONE && Interests(T())[channel.fd] == NONE
      modifies this, channels.Values`index
      ensures Valid()
      ensures T() == Removed(old(T()), channel.fd)
      ensures channels == old(channels) - {channel.fd}
    {
      RemoveRefines(T(), channel.fd);
      ghost var before, goal := T(), Removed(T(), channel.fd);
      var idx := channel.index;
      assert before.index[channel.fd] == idx;
      assert pollFds[idx].fd == -(channel.fd as int) - 1;
      channels := channels - {channel.fd};
      if idx == |pollFds| - 1 {
        pollFds := pollFds[..|pollFds| - 1];
      } else {
        var channelAtEnd := pollFds[|pollFds| - 1].fd;
        assert Owner(channelAtEnd) in before.index && before.index[Owner(channelAtEnd)] != idx;
        pollFds := pollFds[idx := pollFds[|pollFds| - 1]][..|pollFds| - 1];
        if channelAtEnd < 0 {
          channelAtEnd := -channelAtEnd - 1;
        }
        assert forall f <- channels :: f != channelAtEnd ==> channels[f] != channels[channelAtEnd];
        channels[channelAtEnd].index := idx;
      }
      assert T().index == goal.index;
    }

    /** The channels of the first `eventsNum` slots with events, each told its events. */
    method FillActiveChannels(eventsNum: nat) returns (active: seq<Channel>)
      requires Valid() && KernelFilled(pollFds)
      modifies channels.Values`revents
      ensures Valid() && T() == old(T())
      ensures |active| == |ReadyFds(pollFds, eventsNum)|
      ensures forall k :: 0 <= k < |active| ==>
        && active[k] in channels.Values
        && active[k].fd == ReadyFds(pollFds, eventsNum)[k]
        && 0 <= active[k].index < |pollFds|
        && active[k].revents == pollFds[active[k].index].revents
    {
      hide Inv, Interests;
      ValidSlotted();
      active := [];
      var left := eventsNum;
      var i := 0;
      while i < |pollFds| && left > 0
        modifies channels.Values`revents
        invariant 0 <= i <= |pollFds|
        invariant T() == old(T()) && Slotted()
        invariant forall k :: 0 <= k < |active| ==>
          && active[k] in channels.Values && 0 <= active[k].index < i
          && active[k].revents == pollFds[active[k].index].revents
        invariant Fds(active) + ReadyFds(pollFds[i..], left) == ReadyFds(pollFds, eventsNum)
      {
        var pfd := pollFds[i];
        assert pollFds[i..][0] == pfd && pollFds[i..][1..] == pollFds[i + 1..];
        if pfd.revents > 0 {
          left := left - 1;
          if pfd.fd in channels {
            var channel := channels[pfd.fd];
            channel.revents := pfd.revents;
            active := active + [channel];
            assert Fds(active) == Fds(active[..|active| - 1]) + [pfd.fd];
          }
        }
        i := i + 1;
      }
      assert ReadyFds(pollFds[i..], left) == [];
    }
  }

  ghost function Fds(active: seq<Channel>): (r: seq<int>)
    ensures |r| == |active|
  {
    seq(|active|, k requires 0 <= k < |active| => active[k].fd)
  }
}
