/** PollPoller and EPollPoller against one simple specification: a map from registered
    file descriptor to interest mask.  A mask is the channel's events_ word. */
module Pollers {
  import opened Bytes
  import opened ChannelIndex

  // --- The specification ---------------------------------------------------------------

  datatype Call = Update(fd: nat, mask: nat) | Remove(fd: nat)

  type Interest = map<nat, nat>

  // removeChannel is called on registered channels without events (its assertion).
  predicate Legal(m: Interest, c: Call) { c.Remove? ==> c.fd in m && m[c.fd] == 0 }

  function Apply(m: Interest, c: Call): Interest {
    if c.Update? then m[c.fd := c.mask] else m - {c.fd}
  }

  predicate LegalRun(m: Interest, cs: seq<Call>)
    decreases |cs|
  {
    cs == [] || (Legal(m, cs[0]) && LegalRun(Apply(m, cs[0]), cs[1..]))
  }

  function After(m: Interest, cs: seq<Call>): Interest
    decreases |cs|
  {
    if cs == [] then m else After(Apply(m, cs[0]), cs[1..])
  }

  // --- PollPoller ------------------------------------------------------------------------

  datatype PollFd = PollFd(fd: int, events: nat)

  // `index`: the index_ of each channel in channels_.
  datatype PollState = PollState(pollfds: seq<PollFd>, index: map<nat, int>)

  // An ignored slot holds -fd-1.
  function FdOf(slot: PollFd): nat { if slot.fd < 0 then -slot.fd - 1 else slot.fd }

  function Slot(fd: nat, mask: nat): PollFd { PollFd(if mask == 0 then -1 - fd as int else fd as int, mask) }

  predicate Names(p: PollState, fd: nat) {
    && fd in p.index && 0 <= p.index[fd] < |p.pollfds|
    && FdOf(p.pollfds[p.index[fd]]) == fd
  }

  // pollfds_ and channels_ are in bijection through the index.
  ghost predicate PollInv(p: PollState) {
    && (forall fd :: fd in p.index ==> Names(p, fd))
    && (forall i :: 0 <= i < |p.pollfds| ==>
          FdOf(p.pollfds[i]) in p.index && p.index[FdOf(p.pollfds[i])] == i)
    && (forall i :: 0 <= i < |p.pollfds| && p.pollfds[i].fd < 0 ==> p.pollfds[i].events == 0)
  }

  // updateChannel on a channel whose index_ is k.  None: the source indexes out of bounds.
  function PollUpdateAt(p: PollState, fd: nat, k: int, mask: nat): Option<PollState> {
    if k < 0 then
      Some(PollState(p.pollfds + [PollFd(fd, mask)], p.index[fd := |p.pollfds|]))
    else if k < |p.pollfds| then Some(p.(pollfds := p.pollfds[k := Slot(fd, mask)]))
    else None
  }

  // A channel carries -1 until registered and then its slot.
  function IndexOf(p: PollState, fd: nat): int { if fd in p.index then p.index[fd] else -1 }

  function PollUpdate(p: PollState, fd: nat, mask: nat): PollState
    requires fd in p.index ==> Names(p, fd)
  {
    PollUpdateAt(p, fd, IndexOf(p, fd), mask).value
  }

  function PollRemove(p: PollState, fd: nat): PollState
    requires Names(p, fd)
  {
    var k, last := p.index[fd], |p.pollfds| - 1;
    if k == last then PollState(p.pollfds[..last], p.index - {fd})
    else
      var end := p.pollfds[last];
      PollState(p.pollfds[k := end][..last], (p.index - {fd})[FdOf(end) := k])
  }

  function PollInterest(p: PollState): Interest
    requires forall fd :: fd in p.index ==> Names(p, fd)
  {
    map fd | fd in p.index :: assert Names(p, fd); p.pollfds[p.index[fd]].events
  }

  // What an update makes of one channel, and of one slot.
  lemma PollUpdateNames(p: PollState, fd: nat, mask: nat, f: nat)
    requires PollInv(p) && f in PollUpdate(p, fd, mask).index
    ensures var p' := PollUpdate(p, fd, mask);
            && Names(p', f) && (f != fd ==> f in p.index && Names(p, f))
            && p'.pollfds[p'.index[f]].events == if f == fd then mask else p.pollfds[p.index[f]].events
  {
    if f in p.index {
      assert Names(p, f);
    }
  }

  lemma PollUpdateSlot(p: PollState, fd: nat, mask: nat, i: nat)
    requires PollInv(p) && i < |PollUpdate(p, fd, mask).pollfds|
    ensures var p' := PollUpdate(p, fd, mask);
            && FdOf(p'.pollfds[i]) in p'.index && p'.index[FdOf(p'.pollfds[i])] == i
            && (p'.pollfds[i].fd < 0 ==> p'.pollfds[i].events == 0)
  {
    if fd in p.index {
      assert Names(p, fd);
    }
  }

  lemma PollUpdateKeeps(p: PollState, fd: nat, mask: nat)
    requires PollInv(p)
    ensures PollInv(PollUpdate(p, fd, mask))
    ensures PollInterest(PollUpdate(p, fd, mask)) == PollInterest(p)[fd := mask]
  {
    var p' := PollUpdate(p, fd, mask);
    forall f | f in p'.index ensures Names(p', f) {
      PollUpdateNames(p, fd, mask, f);
    }
    forall i | 0 <= i < |p'.pollfds|
      ensures FdOf(p'.pollfds[i]) in p'.index && p'.index[FdOf(p'.pollfds[i])] == i
      ensures p'.pollfds[i].fd < 0 ==> p'.pollfds[i].events == 0
    {
      PollUpdateSlot(p, fd, mask, i);
    }
    UpdatedInterest(p, fd, mask);
  }

  lemma UpdatedInterest(p: PollState, fd: nat, mask: nat)
    requires PollInv(p) && forall f :: f in PollUpdate(p, fd, mask).index ==> Names(PollUpdate(p, fd, mask), f)
    ensures PollInterest(PollUpdate(p, fd, mask)) == PollInterest(p)[fd := mask]
  {
    var p' := PollUpdate(p, fd, mask);
    assert p'.index.Keys == p.index.Keys + {fd};
    forall f | f in p'.index ensures PollInterest(p')[f] == PollInterest(p)[fd := mask][f] {
      PollUpdateNames(p, fd, mask, f);
    }
  }

  // The repair at removal always finds a channel that is still registered.
  lemma RepairFindsChannel(p: PollState, fd: nat)
    requires PollInv(p) && fd in p.index && p.index[fd] != |p.pollfds| - 1
    ensures FdOf(p.pollfds[|p.pollfds| - 1]) in p.index - {fd}
  {
    assert Names(p, fd);
  }

  lemma PollRemoveNames(p: PollState, fd: nat, f: nat)
    requires PollInv(p) && fd in p.index && Names(p, fd) && f in PollRemove(p, fd).index
    ensures f in p.index && f != fd && Names(p, f) && Names(PollRemove(p, fd), f)
    ensures PollRemove(p, fd).pollfds[PollRemove(p, fd).index[f]] == p.pollfds[p.index[f]]
  {
    if p.index[fd] != |p.pollfds| - 1 {
      RepairFindsChannel(p, fd);
    }
    assert Names(p, f);
  }

  lemma PollRemoveSlots(p: PollState, fd: nat)
    requires PollInv(p) && fd in p.index && Names(p, fd)
    ensures PollInv(PollRemove(p, fd))
  {
    var p', k := PollRemove(p, fd), p.index[fd];
    forall f | f in p'.index ensures Names(p', f) {
      PollRemoveNames(p, fd, f);
    }
    forall i | 0 <= i < |p'.pollfds|
      ensures FdOf(p'.pollfds[i]) in p'.index && p'.index[FdOf(p'.pollfds[i])] == i
      ensures p'.pollfds[i].fd < 0 ==> p'.pollfds[i].events == 0
    {
      var j := if i == k then |p.pollfds| - 1 else i;
      assert p'.pollfds[i] == p.pollfds[j];
    }
  }

  lemma PollRemoveKeeps(p: PollState, fd: nat)
    requires PollInv(p) && fd in p.index
    ensures Names(p, fd) && PollInv(PollRemove(p, fd))
    ensures PollInterest(PollRemove(p, fd)) == PollInterest(p) - {fd}
  {
    assert Names(p, fd);
    PollRemoveSlots(p, fd);
    var p' := PollRemove(p, fd);
    forall f | f in p'.index ensures f in PollInterest(p) - {fd} && PollInterest(p')[f] == PollInterest(p)[f] {
      PollRemoveNames(p, fd, f);
    }
    forall f | f in p.index && f != fd ensures f in p'.index {
    }
  }

  // updateChannel keeps the bijection exactly on a channel that was never registered (index
  // -1, fd unknown) or is registered now; a removed channel keeps its old index and breaks it.
  lemma PollUpdateSafeExactly(p: PollState, fd: nat, k: int, mask: nat)
    requires PollInv(p)
    ensures var r := PollUpdateAt(p, fd, k, mask);
            r.Some? && PollInv(r.value) <==>
              if k < 0 then fd !in p.index else fd in p.index && p.index[fd] == k
  {
    var r := PollUpdateAt(p, fd, k, mask);
    if k < 0 {
      if fd in p.index {
        assert Names(p, fd);
        assert r.value.pollfds[p.index[fd]] == p.pollfds[p.index[fd]];
      } else {
        PollUpdateKeeps(p, fd, mask);
      }
    } else if fd in p.index && p.index[fd] == k {
      PollUpdateKeeps(p, fd, mask);
    } else if k < |p.pollfds| {
      assert FdOf(r.value.pollfds[k]) == fd;
    }
  }

  // --- EPollPoller -------------------------------------------------------------------------

  // kAdded or kDeleted; an absent channel is kNew.
  type Mark = i: Index | i != New witness Added

  datatype Ctl = Ctl(op: Op, fd: nat)

  datatype Op = ADD | MOD | DEL

  datatype EPollState = EPollState(
    marks: map<nat, Mark>,      // channels_ with each channel's index_
    masks: Interest,            // the mask each channel last updated with
    kernel: map<nat, nat>,      // the epoll interest set
    ctlOk: bool)                // history: every epoll_ctl so far was acceptable

  predicate Acceptable(kernel: map<nat, nat>, c: Ctl) {
    if c.op == ADD then c.fd !in kernel else c.fd in kernel
  }

  function Control(e: EPollState, op: Op, fd: nat, mask: nat): EPollState {
    e.(kernel := if op == DEL then e.kernel - {fd} else e.kernel[fd := mask],
       ctlOk := e.ctlOk && Acceptable(e.kernel, Ctl(op, fd)))
  }

  function EPollUpdate(e: EPollState, fd: nat, mask: nat): EPollState {
    var e1 := e.(masks := e.masks[fd := mask]);
    if fd !in e.marks || e.marks[fd] == Deleted then
      Control(e1.(marks := e.marks[fd := Added]), ADD, fd, mask)
    else if mask == 0 then Control(e1, DEL, fd, mask).(marks := e.marks[fd := Deleted])
    else Control(e1, MOD, fd, mask)
  }

  function EPollRemove(e: EPollState, fd: nat): EPollState
    requires fd in e.marks
  {
    var e1 := e.(marks := e.marks - {fd}, masks := e.masks - {fd});
    if e.marks[fd] == Added then Control(e1, DEL, fd, 0) else e1
  }

  function MarkOf(e: EPollState, fd: nat): Index { if fd in e.marks then e.marks[fd] else New }

  // The kernel watches exactly the channels marked kAdded, with their masks.
  ghost predicate EPollInv(e: EPollState) {
    && e.ctlOk && e.marks.Keys == e.masks.Keys
    && (forall fd :: fd in e.kernel <==> fd in e.marks && e.marks[fd] == Added)
    && (forall fd :: fd in e.kernel ==> e.kernel[fd] == e.masks[fd])
    && (forall fd :: fd in e.marks && e.marks[fd] == Deleted ==> e.masks[fd] == 0)
  }

  lemma EPollUpdateKeeps(e: EPollState, fd: nat, mask: nat)
    requires EPollInv(e)
    ensures EPollInv(EPollUpdate(e, fd, mask)) && EPollUpdate(e, fd, mask).masks == e.masks[fd := mask]
  {
  }

  lemma EPollRemoveKeeps(e: EPollState, fd: nat)
    requires EPollInv(e) && fd in e.marks
    ensures EPollInv(EPollRemove(e, fd)) && EPollRemove(e, fd).masks == e.masks - {fd}
  {
  }

  // --- Both refine the map ---------------------------------------------------------------

  ghost function PollStep(p: PollState, c: Call): PollState
    requires PollInv(p) && (c.Remove? ==> c.fd in p.index)
  {
    if c.Update? then PollUpdate(p, c.fd, c.mask) else PollRemove(p, c.fd)
  }

  function EPollStep(e: EPollState, c: Call): EPollState
    requires c.Remove? ==> c.fd in e.marks
  {
    if c.Update? then EPollUpdate(e, c.fd, c.mask) else EPollRemove(e, c.fd)
  }

  // What the three hold after the same calls.
  datatype Trio = Trio(m: Interest, p: PollState, e: EPollState)

  const Empty: Trio := Trio(map[], PollState([], map[]), EPollState(map[], map[], map[], true))

  ghost predicate Agree(t: Trio) {
    PollInv(t.p) && EPollInv(t.e) && PollInterest(t.p) == t.m && t.e.masks == t.m
  }

  ghost function Both(t: Trio, c: Call): Trio
    requires Agree(t) && Legal(t.m, c)
  {
    Trio(Apply(t.m, c), PollStep(t.p, c), EPollStep(t.e, c))
  }

  lemma BothAgree(t: Trio, c: Call)
    requires Agree(t) && Legal(t.m, c)
    ensures Agree(Both(t, c))
  {
    match c
    case Update(fd, mask) =>
      PollUpdateKeeps(t.p, fd, mask);
      EPollUpdateKeeps(t.e, fd, mask);
    case Remove(fd) =>
      PollRemoveKeeps(t.p, fd);
      EPollRemoveKeeps(t.e, fd);
  }

  ghost function Run(t: Trio, cs: seq<Call>): (r: Trio)
    requires Agree(t) && LegalRun(t.m, cs)
    ensures Agree(r) && r.m == After(t.m, cs)
    decreases |cs|
  {
    if cs == [] then t else BothAgree(t, cs[0]); Run(Both(t, cs[0]), cs[1..])
  }

  // After any legal call sequence both pollers stand for the same map, PollPoller's index is
  // a bijection, and EPollPoller added only absent and changed or deleted only present fds.
  lemma PollersRefineOneMap(cs: seq<Call>)
    requires LegalRun(map[], cs)
    ensures Agree(Empty)
    ensures var t := Run(Empty, cs);
            && PollInterest(t.p) == After(map[], cs) && t.e.masks == After(map[], cs)
            && PollInv(t.p) && t.e.ctlOk
  {
  }

  // --- Which fds can be reported --------------------------------------------------------

  // poll(2) skips negative slots; epoll reports what its interest set holds.
  function PollWatched(p: PollState): set<nat> {
    set i | 0 <= i < |p.pollfds| && p.pollfds[i].fd >= 0 :: p.pollfds[i].fd
  }

  predicate SameWatch(t: Trio) { PollWatched(t.p) == t.e.kernel.Keys }

  // The one call that separates them: a zero mask again on a channel whose zero mask already
  // took it off.  epoll adds it back (and may report HUP), poll keeps ignoring it.
  predicate Separates(t: Trio, c: Call) {
    c.Update? && c.mask == 0 && c.fd in t.m && c.fd !in t.e.kernel
  }

  lemma PollWatchedIff(p: PollState, f: nat)
    requires PollInv(p)
    ensures f in PollWatched(p) <==> f in p.index && p.pollfds[p.index[f]].fd == f
  {
    if f in p.index {
      assert Names(p, f);
    }
  }

  lemma PollUpdateWatch(p: PollState, fd: nat, mask: nat, f: nat)
    requires PollInv(p)
    ensures f in PollWatched(PollUpdate(p, fd, mask)) <==>
              if f == fd then mask != 0 || fd !in p.index else f in PollWatched(p)
  {
    PollUpdateKeeps(p, fd, mask);
    PollWatchedIff(p, f);
    PollWatchedIff(PollUpdate(p, fd, mask), f);
    if f in p.index {
      assert Names(p, f);
    }
  }

  lemma PollRemoveWatch(p: PollState, fd: nat, f: nat)
    requires PollInv(p) && fd in p.index && Names(p, fd)
    ensures f in PollWatched(PollRemove(p, fd)) <==> f != fd && f in PollWatched(p)
  {
    PollRemoveKeeps(p, fd);
    PollWatchedIff(p, f);
    PollWatchedIff(PollRemove(p, fd), f);
    if f in PollRemove(p, fd).index {
      PollRemoveNames(p, fd, f);
    } else {
      assert f !in PollInterest(PollRemove(p, fd));
    }
  }

  lemma WatchAfter(t: Trio, c: Call, f: nat)
    requires Agree(t) && Legal(t.m, c) && SameWatch(t)
    ensures (f in PollWatched(Both(t, c).p) <==> f in Both(t, c).e.kernel) <==> !(Separates(t, c) && f == c.fd)
  {
    assert t.p.index.Keys == t.m.Keys == t.e.marks.Keys;
    match c
    case Update(fd, mask) => PollUpdateWatch(t.p, fd, mask, f);
    case Remove(fd) =>
      assert Names(t.p, fd);
      PollRemoveWatch(t.p, fd, f);
  }

  // From agreement, one call keeps the reportable fds equal exactly when it does not
  // separate.
  lemma WatchedEquallyExactly(t: Trio, c: Call)
    requires Agree(t) && Legal(t.m, c) && SameWatch(t)
    ensures Agree(Both(t, c)) && (SameWatch(Both(t, c)) <==> !Separates(t, c))
  {
    forall f: nat
      ensures (f in PollWatched(Both(t, c).p) <==> f in Both(t, c).e.kernel) <==> !(Separates(t, c) && f == c.fd)
    {
      WatchAfter(t, c, f);
    }
    BothAgree(t, c);
    if Separates(t, c) {
      WatchAfter(t, c, c.fd);
    }
  }

  // --- The failing calls exist -----------------------------------------------------------

  lemma Run1(t: Trio, c: Call, rest: seq<Call>)
    requires Agree(t) && Legal(t.m, c) && LegalRun(Apply(t.m, c), rest)
    ensures Agree(Both(t, c)) && LegalRun(t.m, [c] + rest)
    ensures Run(t, [c] + rest) == Run(Both(t, c), rest)
  {
    BothAgree(t, c);
    assert ([c] + rest)[1..] == rest;
  }

  // PollPoller with one channel: registered, disabled, removed.
  lemma OneChannel(fd: nat, mask: nat)
    requires mask > 0
    ensures var p0 := PollState([], map[]);
            var p1, p2 := PollState([PollFd(fd, mask)], map[fd := 0]), PollState([Slot(fd, 0)], map[fd := 0]);
            && PollUpdate(p0, fd, mask) == p1
            && Names(p1, fd) && PollUpdate(p1, fd, 0) == p2
            && Names(p2, fd) && PollRemove(p2, fd) == p0
  {
    assert map[fd := 0] - {fd} == map[];
  }

  // Its channel still carries index 0, and its next update writes to no slot at all, or to
  // the slot of whoever came after it.
  lemma StaleUpdate(fd: nat, other: nat, mask: nat)
    requires fd != other && mask > 0
    ensures var p := PollState([], map[]);
            && PollUpdateAt(p, fd, 0, mask).None?
            && !PollInv(PollUpdateAt(PollUpdate(p, other, mask), fd, 0, mask).value)
  {
    var p := PollState([], map[]);
    PollUpdateKeeps(p, other, mask);
    PollUpdateSafeExactly(PollUpdate(p, other, mask), fd, 0, mask);
  }

  // A legal run that leaves such a channel behind.
  lemma StaleIndexBreaks(fd: nat, other: nat, mask: nat)
    requires fd != other && mask > 0
    ensures var cs := [Update(fd, mask)] + ([Update(fd, 0)] + ([Remove(fd)] + []));
            && Agree(Empty) && LegalRun(map[], cs)
            && var p := Run(Empty, cs).p;
               && PollUpdateAt(p, fd, 0, mask).None?
               && !PollInv(PollUpdateAt(PollUpdate(p, other, mask), fd, 0, mask).value)
  {
    var u, z, r := Update(fd, mask), Update(fd, 0), Remove(fd);
    OneChannel(fd, mask);
    StaleUpdate(fd, other, mask);
    BothAgree(Empty, u);
    var t1 := Both(Empty, u);
    BothAgree(t1, z);
    var t2 := Both(t1, z);
    Run1(t2, r, []);
    Run1(t1, z, [r] + []);
    Run1(Empty, u, [z] + ([r] + []));
  }

  // Registered, then disabled twice: epoll watches again, poll does not.
  lemma DisablingTwiceSeparates(fd: nat, mask: nat)
    requires mask > 0
    ensures var cs := [Update(fd, mask)] + ([Update(fd, 0)] + ([Update(fd, 0)] + []));
            Agree(Empty) && LegalRun(map[], cs) && !SameWatch(Run(Empty, cs))
  {
    var u, z := Update(fd, mask), Update(fd, 0);
    assert SameWatch(Empty);
    var t1 := Both(Empty, u);
    WatchedEquallyExactly(Empty, u);
    var t2 := Both(t1, z);
    WatchedEquallyExactly(t1, z);
    WatchedEquallyExactly(t2, z);
    Run1(t2, z, []);
    Run1(t1, z, [z] + []);
    Run1(Empty, u, [z] + ([z] + []));
  }
}
