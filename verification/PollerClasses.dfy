/** The two pollers as objects over shared Channel objects, proved against module
    Pollers.  A poller writes its bookkeeping into the channels' index_. */
module PollerClasses {
  import opened ChannelIndex
  import opened Pollers

  class Channel {
    const fd: nat
    var events: nat
    var revents: nat
    var index: int

    constructor (fd: nat)
      ensures this.fd == fd && events == 0 && revents == 0 && index == -1
    {
      this.fd, events, revents, index := fd, 0, 0, -1;
    }
  }

  class PollPoller {
    var pollfds: seq<PollFd>
    var revents: seq<nat>              // the revents words poll(2) filled in
    var channels: map<nat, Channel>

    ghost function View(): PollState
      reads this, channels.Values
    {
      PollState(pollfds, map fd | fd in channels :: channels[fd].index)
    }

    ghost predicate Valid()
      reads this, channels.Values
    {
      Shaped() && PollInv(View())
    }

    ghost predicate Shaped()
      reads this
    {
      forall fd :: fd in channels ==> channels[fd].fd == fd
    }

    // Never registered, or registered now under this index.
    ghost predicate Fits(ch: Channel)
      reads this, ch, channels.Values
    {
      if ch.index < 0 then ch.fd !in channels
      else ch.fd in channels && channels[ch.fd].index == ch.index
    }

    // For any channel whose index the vector can take: afterwards pollfds_ and channels_ are
    // in bijection again if and only if the channel fitted.
    method UpdateChannel(ch: Channel)
      requires Valid() && ch.index < |pollfds|
      modifies this, ch`index
      ensures View() == PollUpdateAt(old(View()), ch.fd, old(ch.index), ch.events).value
      ensures pollfds == if old(ch.index) < 0 then old(pollfds) + [PollFd(ch.fd, ch.events)]
                         else old(pollfds)[old(ch.index) :=
                                PollFd(if ch.events == 0 then -(ch.fd as int) - 1 else ch.fd, ch.events)]
      ensures Valid() <==> old(Fits(ch))
      ensures channels == if old(ch.index) < 0 then old(channels)[ch.fd := ch] else old(channels)
    {
      PollUpdateSafeExactly(View(), ch.fd, ch.index, ch.events);
      WriteSlot(ch);
    }

    method WriteSlot(ch: Channel)
      requires Shaped() && ch.index < |pollfds| && (ch.index < 0 ==> ch !in channels.Values)
      modifies this, ch`index
      ensures Shaped() && View() == PollUpdateAt(old(View()), ch.fd, old(ch.index), ch.events).value
      ensures channels == if old(ch.index) < 0 then old(channels)[ch.fd := ch] else old(channels)
    {
      ghost var p := View();
      if ch.index < 0 {
        pollfds := pollfds + [PollFd(ch.fd, ch.events)];
        ch.index := |pollfds| - 1;
        channels := channels[ch.fd := ch];
        assert View().index == p.index[ch.fd := |p.pollfds|];
      } else {
        pollfds := pollfds[ch.index := Slot(ch.fd, ch.events)];
      }
    }

    // The removed channel keeps its index, as in the source.
    method RemoveChannel(ch: Channel)
      requires Valid() && ch.fd in channels && channels[ch.fd] == ch
      modifies this, channels.Values
      ensures Valid() && Names(old(View()), ch.fd) && View() == PollRemove(old(View()), ch.fd)
      ensures pollfds == var last := |old(pollfds)| - 1; old(pollfds)[old(ch.index) := old(pollfds)[last]][..last]
      ensures ch.index == old(ch.index) && channels == old(channels) - {ch.fd}
    {
      ghost var p := View();
      PollRemoveKeeps(p, ch.fd);
      if ch.index != |pollfds| - 1 {
        RepairFindsChannel(p, ch.fd);
      }
      Detach(ch);
    }

    method Detach(ch: Channel)
      requires Shaped() && ch.fd in channels && channels[ch.fd] == ch && Names(View(), ch.fd)
      requires ch.index != |pollfds| - 1 ==> FdOf(pollfds[|pollfds| - 1]) in channels - {ch.fd}
      modifies this, channels.Values`index
      ensures View() == PollRemove(old(View()), ch.fd)
      ensures ch.index == old(ch.index) && channels == old(channels) - {ch.fd}
    {
      ghost var p := View();
      var k, last := ch.index, |pollfds| - 1;
      channels := channels - {ch.fd};
      assert View().index == p.index - {ch.fd};
      if k == last {
        pollfds := pollfds[..last];
      } else {
        var end := pollfds[last];
        pollfds := pollfds[k := end];
        Repair(FdOf(end), k);
        pollfds := pollfds[..last];
      }
    }

    method Repair(fd: nat, k: nat)
      requires fd in channels && Shaped()
      modifies (channels[fd] as Channel)`index
      ensures View() == old(View()).(index := old(View()).index[fd := k])
    {
      channels[fd].index := k;
      assert View().index == old(View()).index[fd := k];
    }

    // fillActiveChannels after poll(2) reported numEvents slots.
    method FillActiveChannels(numEvents: nat) returns (active: seq<Channel>)
      requires Valid() && |revents| == |pollfds| && numEvents == Positives(revents)
      requires forall i :: 0 <= i < |pollfds| && pollfds[i].fd < 0 ==> revents[i] == 0
      modifies channels.Values`revents
      ensures Valid() && View() == old(View())
      ensures Registered(active) && Lists(active, Reported(pollfds, revents))
      ensures forall i :: 0 <= i < |pollfds| && revents[i] > 0 ==> Delivered(i)
    {
      ghost var p := View();
      assert forall i :: 0 <= i < |pollfds| ==> FdOf(pollfds[i]) in p.index;
      assert DistinctSlots(pollfds);
      active := Collect(numEvents);
      assert View() == p;
    }

    // The scan, stopping once numEvents marked slots were found.
    method Collect(numEvents: nat) returns (active: seq<Channel>)
      requires |revents| == |pollfds| && numEvents == Positives(revents)
      requires forall i :: 0 <= i < |pollfds| && pollfds[i].fd < 0 ==> revents[i] == 0
      requires Scannable()
      modifies channels.Values`revents
      ensures Registered(active) && Lists(active, Reported(pollfds, revents))
      ensures forall i :: 0 <= i < |pollfds| && revents[i] > 0 ==> Delivered(i)
    {
      active := [];
      var left, i := numEvents, 0;
      Scan(pollfds, revents, 0);
      while i < |pollfds| && left > 0
        invariant i <= |pollfds| && left == Left(revents, i)
        invariant Registered(active) && Lists(active, Head(pollfds, revents, i))
        invariant forall j :: 0 <= j < i && revents[j] > 0 ==> Delivered(j)
      {
        left, active := Visit(i, left, active);
        i := i + 1;
      }
      NoneLeft(pollfds, revents, i);
    }

    ghost predicate Scannable()
      reads this
    {
      && DistinctSlots(pollfds)
      && (forall i :: 0 <= i < |pollfds| ==>
            FdOf(pollfds[i]) in channels && channels[FdOf(pollfds[i])].fd == FdOf(pollfds[i]))
    }

    ghost predicate Registered(cs: seq<Channel>)
      reads this
    {
      forall k :: 0 <= k < |cs| ==> cs[k].fd in channels && channels[cs[k].fd] == cs[k]
    }

    // The channel of slot i holds what poll(2) reported there.
    ghost predicate Delivered(i: nat)
      requires i < |pollfds| && |revents| == |pollfds|
      reads this, channels.Values
    {
      FdOf(pollfds[i]) in channels && channels[FdOf(pollfds[i])].revents == revents[i]
    }

    // One slot of the scan.
    method Visit(i: nat, left: nat, done: seq<Channel>) returns (left': nat, active: seq<Channel>)
      requires Scannable() && i < |pollfds| && |revents| == |pollfds| && left == Left(revents, i)
      requires pollfds[i].fd < 0 ==> revents[i] == 0
      requires Registered(done) && Lists(done, Head(pollfds, revents, i))
      modifies channels.Values`revents
      ensures left' == Left(revents, i + 1)
      ensures Registered(active) && Lists(active, Head(pollfds, revents, i + 1))
      ensures revents[i] > 0 ==> Delivered(i)
      ensures forall j :: 0 <= j < |pollfds| && old(Delivered(j)) ==> Delivered(j)
    {
      Scan(pollfds, revents, i);
      left', active := left, done;
      if revents[i] > 0 {
        left' := left - 1;
        active := Activate(i, done);
      }
    }

    method Activate(i: nat, done: seq<Channel>) returns (active: seq<Channel>)
      requires Scannable() && i < |pollfds| && |revents| == |pollfds| && revents[i] > 0 && pollfds[i].fd >= 0
      requires Registered(done) && Lists(done, Head(pollfds, revents, i))
      modifies channels.Values`revents
      ensures Registered(active) && Lists(active, Head(pollfds, revents, i + 1)) && Delivered(i)
      ensures forall j :: 0 <= j < |pollfds| && old(Delivered(j)) ==> Delivered(j)
    {
      Scan(pollfds, revents, i);
      var ch := channels[pollfds[i].fd];
      ch.revents := revents[i];
      active := done + [ch];
    }
  }

  predicate DistinctSlots(p: seq<PollFd>) {
    forall i, j :: 0 <= i < j < |p| ==> FdOf(p[i]) != FdOf(p[j])
  }

  function Positives(r: seq<nat>): nat {
    if r == [] then 0 else (if r[0] > 0 then 1 else 0) + Positives(r[1..])
  }

  // The fds of the slots poll(2) marked, in slot order.
  function Reported(p: seq<PollFd>, r: seq<nat>): seq<int>
    requires |p| == |r|
  {
    if p == [] then []
    else Reported(p[..|p| - 1], r[..|r| - 1]) + if r[|r| - 1] > 0 then [p[|p| - 1].fd] else []
  }

  ghost predicate Lists(cs: seq<Channel>, fds: seq<int>) {
    |cs| == |fds| && forall k :: 0 <= k < |cs| ==> cs[k].fd == fds[k]
  }

  // What the first i slots report, and how many marks are left after them.
  ghost function Head(p: seq<PollFd>, r: seq<nat>, i: nat): seq<int>
    requires i <= |p| == |r|
  {
    Reported(p[..i], r[..i])
  }

  ghost function Left(r: seq<nat>, i: nat): nat
    requires i <= |r|
  {
    Positives(r[i..])
  }

  lemma Scan(p: seq<PollFd>, r: seq<nat>, i: nat)
    requires i <= |p| == |r|
    ensures i == 0 ==> Head(p, r, i) == [] && Left(r, i) == Positives(r)
    ensures i < |p| && r[i] > 0 ==> Left(r, i) == 1 + Left(r, i + 1) && Head(p, r, i + 1) == Head(p, r, i) + [p[i].fd]
    ensures i < |p| && r[i] == 0 ==> Left(r, i) == Left(r, i + 1) && Head(p, r, i + 1) == Head(p, r, i)
  {
    assert r[0..] == r;
    if i < |p| {
      assert r[i..][1..] == r[i + 1..];
      assert p[..i + 1][..i] == p[..i] && r[..i + 1][..i] == r[..i];
    }
  }

  lemma {:induction false} NoneLeft(p: seq<PollFd>, r: seq<nat>, i: nat)
    requires i <= |p| == |r| && (i == |p| || Left(r, i) == 0)
    ensures Reported(p, r) == Head(p, r, i) && forall j :: i <= j < |r| ==> r[j] == 0
    decreases |p| - i
  {
    Scan(p, r, i);
    if i < |p| {
      NoneLeft(p, r, i + 1);
    } else {
      assert p[..i] == p && r[..i] == r;
    }
  }

  class EPollPoller {
    var channels: map<nat, Channel>
    ghost var masks: Interest
    ghost var kernel: map<nat, nat>
    ghost var ctlOk: bool

    ghost function View(): EPollState
      reads this, channels.Values
    {
      EPollState(map fd | fd in channels :: if channels[fd].index == K_ADDED then Added else Deleted,
                 masks, kernel, ctlOk)
    }

    ghost predicate Valid()
      reads this, channels.Values
    {
      Shaped() && EPollInv(View()) && Marked()
    }

    ghost predicate Marked()
      reads this, channels.Values
    {
      forall fd :: fd in channels ==> channels[fd].index == K_ADDED || channels[fd].index == K_DELETED
    }

    ghost predicate Shaped()
      reads this
    {
      forall fd :: fd in channels ==> channels[fd].fd == fd
    }

    // update: epoll_ctl with the channel's mask
    ghost method Control(op: Op, fd: nat, mask: nat)
      modifies this`kernel, this`ctlOk
      ensures View() == Pollers.Control(old(View()), op, fd, mask)
      ensures (fd in kernel <==> op != DEL) && (op != DEL ==> kernel[fd] == mask)
      ensures kernel - {fd} == old(kernel) - {fd}
      ensures ctlOk <==> old(ctlOk) && (fd in old(kernel) <==> op != ADD)
    {
      ctlOk := ctlOk && Acceptable(kernel, Ctl(op, fd));
      kernel := if op == DEL then kernel - {fd} else kernel[fd := mask];
    }

    // A channel's index_ changes together with what the poller holds of it.
    method SetIndex(ch: Channel, index: int)
      requires ch.fd in channels && channels[ch.fd] == ch && Shaped() && Marked()
      requires index == K_ADDED || index == K_DELETED
      modifies ch`index
      ensures ch.index == index && Marked()
      ensures View() == old(View()).(marks := old(View()).marks[ch.fd := if index == K_ADDED then Added else Deleted])
    {
      ch.index := index;
      assert View().marks == old(View()).marks[ch.fd := if index == K_ADDED then Added else Deleted];
    }

    method UpdateChannel(ch: Channel)
      requires Valid() && (if ch.fd in channels then channels[ch.fd] == ch else ch.index == K_NEW)
      modifies this, ch`index
      ensures Valid() && View() == EPollUpdate(old(View()), ch.fd, ch.events)
      ensures ch.index == if old(ch.index) == K_ADDED && ch.events == 0 then K_DELETED else K_ADDED
      ensures if ch.index == K_ADDED then ch.fd in kernel && kernel[ch.fd] == ch.events else ch.fd !in kernel
      ensures ch.fd in channels && channels[ch.fd] == ch
    {
      EPollUpdateKeeps(View(), ch.fd, ch.events);
      if ch.index == K_NEW || ch.index == K_DELETED {
        AddChannel(ch);
      } else {
        ChangeChannel(ch);
      }
    }

    method AddChannel(ch: Channel)
      requires Shaped() && Marked()
      requires if ch.fd in channels then channels[ch.fd] == ch && ch.index == K_DELETED else ch.index == K_NEW
      modifies this, ch`index
      ensures Shaped() && Marked() && View() == EPollUpdate(old(View()), ch.fd, ch.events)
      ensures ch.fd in channels && channels[ch.fd] == ch && ch.index == K_ADDED
      ensures channels == old(channels)[ch.fd := ch]
    {
      Admit(ch);
      Control(ADD, ch.fd, ch.events);
    }

    method Admit(ch: Channel)
      requires Shaped()
      requires if ch.fd in channels then channels[ch.fd] == ch && ch.index == K_DELETED else ch.index == K_NEW
      modifies this`channels, this`masks, ch`index
      ensures View() == old(View()).(marks := old(View()).marks[ch.fd := Added],
                                     masks := old(View()).masks[ch.fd := ch.events])
      ensures channels == old(channels)[ch.fd := ch] && ch.index == K_ADDED
    {
      masks := masks[ch.fd := ch.events];
      if ch.index == K_NEW {
        channels := channels[ch.fd := ch];
      }
      ch.index := K_ADDED;
      assert View().marks == old(View()).marks[ch.fd := Added];
    }

    method ChangeChannel(ch: Channel)
      requires Shaped() && Marked() && ch.fd in channels && channels[ch.fd] == ch && ch.index == K_ADDED
      modifies this`masks, this`kernel, this`ctlOk, ch`index
      ensures Shaped() && Marked() && View() == EPollUpdate(old(View()), ch.fd, ch.events)
      ensures channels == old(channels)
    {
      ghost var e := View();
      masks := masks[ch.fd := ch.events];
      assert View() == e.(masks := e.masks[ch.fd := ch.events]);
      if ch.events == 0 {
        Disable(ch);
      } else {
        Control(MOD, ch.fd, ch.events);
      }
    }

    method Disable(ch: Channel)
      requires Shaped() && Marked() && ch.fd in channels && channels[ch.fd] == ch
      modifies this`kernel, this`ctlOk, ch`index
      ensures Shaped() && Marked()
      ensures View() == Pollers.Control(old(View()), DEL, ch.fd, ch.events).(
                          marks := old(View()).marks[ch.fd := Deleted])
    {
      Control(DEL, ch.fd, ch.events);
      SetIndex(ch, K_DELETED);
    }

    method RemoveChannel(ch: Channel)
      requires Valid() && ch.fd in channels && channels[ch.fd] == ch && ch.events == 0
      modifies this, ch`index
      ensures Valid() && ch.fd in old(View()).marks && View() == EPollRemove(old(View()), ch.fd)
      ensures ch.index == K_NEW && channels == old(channels) - {ch.fd}
    {
      EPollRemoveKeeps(View(), ch.fd);
      var index := ch.index;
      Forget(ch);
      if index == K_ADDED {
        Control(DEL, ch.fd, 0);
      }
    }

    method Forget(ch: Channel)
      requires Shaped() && ch.fd in channels && channels[ch.fd] == ch
      modifies this`channels, this`masks, ch`index
      ensures View() == old(View()).(marks := old(View()).marks - {ch.fd}, masks := old(View()).masks - {ch.fd})
      ensures channels == old(channels) - {ch.fd} && ch.index == K_NEW
    {
      channels := channels - {ch.fd};
      masks := masks - {ch.fd};
      ch.index := K_NEW;
      assert View().marks == old(View()).marks - {ch.fd};
    }
  }
}
