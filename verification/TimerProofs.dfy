/** What every run of the timer queue keeps. */
module TimerProofs {
  import opened Bytes
  import opened Timers

  // --- The two indexes --------------------------------------------------------------

  ghost predicate IndexOk(s: State) { SameTimers(s) && BatchOk(s) }

  lemma AddIndex(s: State, a: nat, t: Timer)
    requires IndexOk(s) && Legal(s, Add(a, t))
    ensures IndexOk(AddTimer(s, a, t))
  {
  }

  lemma CancelIndex(s: State, a: nat, q: nat)
    requires IndexOk(s)
    ensures IndexOk(CancelTimer(s, a, q))
  {
  }

  lemma BeginIndex(s: State, expired: seq<Entry>)
    requires IndexOk(s) && Legal(s, Begin(expired))
    ensures IndexOk(BeginPass(s, expired))
  {
    var s' := BeginPass(s, expired);
    assert Addrs(expired[..0]) == [];
    assert s'.log == s'.phase.before + [];
  }

  lemma FireIndex(s: State)
    requires IndexOk(s) && Legal(s, Fire)
    ensures IndexOk(FireNext(s))
  {
    var b, n := s.phase.expired, s.phase.next;
    assert Addrs(b[..n + 1]) == Addrs(b[..n]) + [b[n].addr];
    Assoc(s.phase.before, Addrs(b[..n]), [b[n].addr]);
  }

  lemma ReinsertIndex(s: State, again: set<nat>, now: int)
    requires SameTimers(s) && forall a :: a in again ==> a in s.heap && Id(s.heap, a) !in s.active
    ensures SameTimers(Reinserted(s, again, now))
  {
  }

  lemma ResetIndex(s: State)
    requires IndexOk(s) && s.phase.Pass?
    ensures SameTimers(ResetTimers(s, s.phase.expired, s.phase.now))
  {
    var b := s.phase.expired;
    forall a | a in Again(s, b) ensures a in s.heap && Id(s.heap, a) !in s.active {
      var e :| e in b && e.addr == a;
    }
    ReinsertIndex(s, Again(s, b), s.phase.now);
  }

  // The assertions of insert: the two sets are of one size.
  lemma {:induction false} SizesAgree(s: State)
    requires SameTimers(s)
    ensures |s.timers| == |s.active|
    decreases |s.timers|
  {
    if e :| e in s.timers {
      SizesAgree(s.(timers := s.timers - {e}, active := s.active - {Id(s.heap, e.addr)}));
    } else {
      assert s.active == {};
    }
  }

  lemma EndIndex(s: State, first: Option<Entry>)
    requires IndexOk(s) && Legal(s, End(first))
    ensures IndexOk(EndPass(s, first))
  {
    ResetIndex(s);
  }

  lemma TickIndex(s: State, at: int)
    requires IndexOk(s)
    ensures IndexOk(TickTo(s, at))
  {
  }

  lemma StepIndex(s: State, e: Event)
    requires IndexOk(s) && Legal(s, e)
    ensures IndexOk(Step(s, e))
  {
    match e
    case Add(a, t) => AddIndex(s, a, t);
    case Cancel(a, q) => CancelIndex(s, a, q);
    case Begin(expired) => BeginIndex(s, expired);
    case Fire => FireIndex(s);
    case End(first) => EndIndex(s, first);
    case Tick(at) => TickIndex(s, at);
  }

  // --- The timerfd --------------------------------------------------------------------

  // The relative time handed to timerfd_settime is normalised, never zero (zero would
  // disarm), and is the delay rounded up to 100 microseconds.
  lemma ArmingNeverDisarms(when: int, now: int)
    ensures var t := HowMuchTimeFromNow(when, now);
            && 0 <= t.sec && 0 <= t.nsec < 1000000000 && t != Timespec(0, 0)
            && InMicros(t) == Max(when - now, 100)
  {
    var micros := Max(when - now, 100);
    assert micros == (micros / MICROS_PER_SECOND) * MICROS_PER_SECOND + micros % MICROS_PER_SECOND;
    assert ((micros % MICROS_PER_SECOND) * 1000) / 1000 == micros % MICROS_PER_SECOND;
  }

  lemma RearmCovers(s: State, when: int, w: int)
    requires when <= w
    ensures Covers(Rearm(s, when).fd, w)
  {
    ArmingNeverDisarms(when, s.clock);
  }

  lemma CoverAdd(s: State, a: nat, t: Timer)
    requires CoverOk(s)
    ensures CoverOk(AddTimer(s, a, t))
  {
    var s' := AddTimer(s, a, t);
    if EarliestChanged(s.timers, t.expiration) {
      forall e | e in s'.timers ensures Covers(s'.fd, e.when) {
        RearmCovers(Insert(s.(heap := s.heap[a := t]), a), t.expiration, e.when);
      }
    } else {
      var e :| e in s.timers && !(t.expiration < e.when);
      assert (s.phase.Pass? ==> t.expiration <= s.phase.now) ==> Covers(s.fd, e.when);
    }
  }

  // The earliest entry is covered even when reset does not rearm for it: an invalid (not
  // positive) expiration can only have been added during the pass, which armed for it.
  lemma CoverEnd(s: State, first: Option<Entry>)
    requires CoverOk(s) && Legal(s, End(first))
    ensures CoverOk(EndPass(s, first))
  {
    var s1 := ResetTimers(s, s.phase.expired, s.phase.now).(phase := Idle);
    var s' := EndPass(s, first);
    forall e | e in s'.timers ensures Covers(s'.fd, e.when) {
      var f := first.value;
      if f.when > 0 {
        RearmCovers(s1, f.when, e.when);
      } else {
        assert f in s.timers && f.when <= s.phase.now;
        assert Covers(s.fd, f.when);
      }
    }
  }

  lemma StepCover(s: State, e: Event)
    requires CoverOk(s) && Legal(s, e)
    ensures CoverOk(Step(s, e))
  {
    match e
    case Add(a, t) => CoverAdd(s, a, t);
    case End(first) => CoverEnd(s, first);
    case _ =>
  }

  // --- What each step does, in sets and in microseconds -------------------------------------

  // A new timer joins both sets and rearms exactly when it comes before every other.
  lemma AddMeans(s: State, a: nat, t: Timer)
    requires Legal(s, Add(a, t))
    ensures var s' := Step(s, Add(a, t));
            && s'.heap == s.heap[a := t]
            && s'.timers == s.timers + {Entry(t.expiration, a)} && s'.active == s.active + {(a, t.sequence)}
            && s'.fd == if forall e :: e in s.timers ==> t.expiration < e.when
                        then Armed(s.clock, s.clock + if t.expiration - s.clock < 100 then 100
                                                      else t.expiration - s.clock)
                        else s.fd
  {
    ArmingNeverDisarms(t.expiration, s.clock);
  }

  // A cancel takes a scheduled timer out of both sets, or is remembered while callbacks run,
  // or does nothing.
  lemma CancelMeans(s: State, a: nat, q: nat)
    requires SameTimers(s)
    ensures var s' := CancelTimer(s, a, q);
            && s'.heap == s.heap && s'.fd == s.fd && s'.log == s.log && s'.phase == s.phase
            && s'.active == s.active - {(a, q)}
            && s'.timers == (set e | e in s.timers && !(e.addr == a && (a, q) in s.active))
            && s'.canceling == s.canceling + if (a, q) !in s.active && s.phase.Pass? then {(a, q)} else {}
  {
  }

  // A pass starts by reading the timerfd and taking exactly the due timers out of both sets.
  lemma BeginMeans(s: State, expired: seq<Entry>)
    requires SameTimers(s) && Legal(s, Begin(expired))
    ensures var s' := Step(s, Begin(expired));
            && !s'.fd.Readable? && (!s.fd.Readable? ==> s'.fd == s.fd)
            && s'.canceling == {} && s'.heap == s.heap && s'.log == s.log
            && s'.timers == (set e | e in s.timers && s.clock < e.when)
            && (forall id :: id in s'.active <==> id in s.active && s.clock < s.heap[id.0].expiration)
  {
    forall id | id in s.active ensures id in Ids(s.heap, expired) <==> s.heap[id.0].expiration <= s.clock {
      var e := EntryOf(s.heap, id.0);
      assert e in s.timers && id == Id(s.heap, id.0);
      if id in Ids(s.heap, expired) {
        var x :| x in expired && x.addr in s.heap && Id(s.heap, x.addr) == id;
        assert x in s.timers;
      }
    }
  }

  // A pass ends by arming the timerfd for the earliest timer, if that has a valid expiration.
  lemma EndMeans(s: State, first: Option<Entry>)
    requires Legal(s, End(first))
    ensures var s' := Step(s, End(first));
            && s'.phase.Idle? && s'.log == s.log && (first.None? <==> s'.timers == {})
            && (first.Some? ==> first.value in s'.timers && forall e :: e in s'.timers ==> first.value.when <= e.when)
            && s'.fd == if first.Some? && first.value.when > 0
                        then Armed(s.clock, s.clock + if first.value.when - s.clock < 100 then 100
                                                      else first.value.when - s.clock)
                        else s.fd
  {
    if first.Some? {
      ArmingNeverDisarms(first.value.when, s.clock);
    }
  }

  // The armed timerfd becomes readable when its time has come, and not before.
  lemma TickMeans(s: State, at: int)
    requires Legal(s, Tick(at))
    ensures var s' := Step(s, Tick(at));
            s' == s.(clock := at, fd := if s.fd.Armed? && s.fd.deadline <= at then Readable else s.fd)
  {
  }

  // --- Counting -----------------------------------------------------------------------

  function Fired(s: State, a: nat): nat { multiset(s.log)[a] }

  // Still to be fired in the running pass.
  function Waiting(s: State, a: nat): nat {
    if s.phase.Pass? && s.phase.next <= |s.phase.expired| then
      multiset(Addrs(s.phase.expired[s.phase.next..]))[a]
    else 0
  }

  predicate Scheduled(s: State, a: nat) { a in s.heap && Id(s.heap, a) in s.active }

  predicate InBatch(s: State, a: nat) { s.phase.Pass? && a in Addrs(s.phase.expired) }

  // The account of timer a.
  predicate AccountOk(s: State, a: nat) {
    if a !in s.heap then Fired(s, a) == 0 && s.inserted[a] == 0 else
    var t := s.heap[a];
    && Fired(s, a) + Waiting(s, a) + One(Scheduled(s, a)) <= s.inserted[a]
    && (a !in s.cancelled ==> Fired(s, a) + Waiting(s, a) + One(Scheduled(s, a)) == s.inserted[a])
    && (!t.repeat ==> s.inserted[a] == 1)
    && (InBatch(s, a) && Id(s.heap, a) in s.canceling ==> a in s.cancelled)
    && (t.repeat && a !in s.cancelled ==> Scheduled(s, a) || InBatch(s, a))
  }

  ghost predicate Accounts(s: State) { forall a: nat :: AccountOk(s, a) }

  predicate Appears(b: seq<Entry>, n: nat, a: nat) { exists i :: n <= i < |b| && b[i].addr == a }

  lemma {:induction false} CountOnce(b: seq<Entry>, n: nat, a: nat)
    requires n <= |b| && forall i, j :: 0 <= i < j < |b| ==> b[i].addr != b[j].addr
    ensures multiset(Addrs(b[n..]))[a] == One(Appears(b, n, a))
    decreases |b| - n
  {
    if n == |b| {
      assert Addrs(b[n..]) == [];
    } else {
      CountOnce(b, n + 1, a);
      assert Addrs(b[n..]) == [b[n].addr] + Addrs(b[n + 1..]);
      assert Appears(b, n, a) <==> b[n].addr == a || Appears(b, n + 1, a);
    }
  }

  // A batch holds each timer once.
  lemma BatchOnce(s: State, b: seq<Entry>, n: nat, a: nat)
    requires n <= |b| && Sorted(b)
    requires forall i :: 0 <= i < |b| ==> b[i].addr in s.heap && b[i] == EntryOf(s.heap, b[i].addr)
    ensures multiset(Addrs(b[n..]))[a] == One(Appears(b, n, a))
  {
    forall i, j | 0 <= i < j < |b| ensures b[i].addr != b[j].addr {
      assert Less(b[i], b[j]);
    }
    CountOnce(b, n, a);
  }

  lemma WaitingIsInHeap(s: State, a: nat)
    requires IndexOk(s) && a !in s.heap
    ensures Waiting(s, a) == 0
  {
    if s.phase.Pass? {
      BatchOnce(s, s.phase.expired, s.phase.next, a);
    }
  }

  lemma NotInBatch(s: State, a: nat)
    requires IndexOk(s) && a !in s.heap
    ensures !InBatch(s, a)
  {
    if s.phase.Pass? {
      assert forall i :: 0 <= i < |s.phase.expired| ==> Addrs(s.phase.expired)[i] in s.heap;
    }
  }

  // What adds and cancels leave alone of the account of a.
  predicate SameAccount(s: State, s': State, a: nat) {
    Fired(s', a) == Fired(s, a) && Waiting(s', a) == Waiting(s, a) && s'.phase == s.phase
  }

  lemma AddFrame(s: State, x: nat, t: Timer, a: nat)
    requires x !in s.heap
    ensures var s' := AddTimer(s, x, t);
            && SameAccount(s, s', a) && s'.canceling == s.canceling && s'.cancelled == s.cancelled
            && s'.heap == s.heap[x := t] && s'.inserted[a] == s.inserted[a] + One(a == x)
            && (a == x ==> Scheduled(s', a)) && (a != x ==> Scheduled(s', a) == Scheduled(s, a))
  {
  }

  lemma AddAccount(s: State, x: nat, t: Timer, a: nat)
    requires IndexOk(s) && Legal(s, Add(x, t)) && AccountOk(s, a)
    ensures AccountOk(AddTimer(s, x, t), a)
  {
    AddFrame(s, x, t, a);
    if a == x {
      WaitingIsInHeap(s, a);
      NotInBatch(s, a);
      assert !InBatch(AddTimer(s, x, t), a);
    } else {
      assert InBatch(AddTimer(s, x, t), a) == InBatch(s, a);
    }
  }

  lemma CancelFrame(s: State, x: nat, q: nat, a: nat)
    ensures var s' := CancelTimer(s, x, q);
            && SameAccount(s, s', a) && s'.heap == s.heap && s'.inserted == s.inserted
            && (Scheduled(s', a) ==> Scheduled(s, a)) && s.cancelled <= s'.cancelled
            && (a !in s'.cancelled ==> Scheduled(s', a) == Scheduled(s, a))
            && (a in s.heap && Id(s.heap, a) in s'.canceling ==> Id(s.heap, a) in s.canceling || a in s'.cancelled)
  {
  }

  lemma CancelAccount(s: State, x: nat, q: nat, a: nat)
    requires IndexOk(s) && AccountOk(s, a)
    ensures AccountOk(CancelTimer(s, x, q), a)
  {
    CancelFrame(s, x, q, a);
  }

  lemma BeginAccount(s: State, expired: seq<Entry>, a: nat)
    requires IndexOk(s) && Legal(s, Begin(expired)) && AccountOk(s, a)
    ensures AccountOk(BeginPass(s, expired), a)
  {
    var s' := BeginPass(s, expired);
    BatchOnce(s, expired, 0, a);
    assert expired[0..] == expired;
    if a in s.heap {
      if Appears(expired, 0, a) {
        var i :| 0 <= i < |expired| && expired[i].addr == a;
        assert expired[i] in expired && Scheduled(s, a) && !Scheduled(s', a);
        assert Addrs(expired)[i] == a;
      } else {
        assert Scheduled(s', a) == Scheduled(s, a);
      }
    }
  }

  lemma FireTrades(s: State, a: nat)
    requires IndexOk(s) && Legal(s, Fire)
    ensures var one := One(s.phase.expired[s.phase.next].addr == a);
            && Fired(FireNext(s), a) == Fired(s, a) + one
            && Waiting(FireNext(s), a) + one == Waiting(s, a)
  {
    var b, n := s.phase.expired, s.phase.next;
    assert Addrs(b[n..]) == [b[n].addr] + Addrs(b[n + 1..]);
  }

  lemma FireAccount(s: State, a: nat)
    requires IndexOk(s) && Legal(s, Fire) && AccountOk(s, a)
    ensures AccountOk(FireNext(s), a)
  {
    FireTrades(s, a);
    assert s.phase.expired[s.phase.next].addr in s.heap;
  }

  lemma EndTrades(s: State, first: Option<Entry>, a: nat)
    requires IndexOk(s) && Legal(s, End(first))
    ensures var s', again := EndPass(s, first), a in Again(s, s.phase.expired);
            && (Scheduled(s', a) <==> Scheduled(s, a) || again) && !(Scheduled(s, a) && again)
            && s'.inserted[a] == s.inserted[a] + One(again)
            && Fired(s', a) == Fired(s, a) && Waiting(s', a) == 0 && Waiting(s, a) == 0
  {
    var b := s.phase.expired;
    assert Addrs(b[|b|..]) == [];
    if a in Again(s, b) {
      var e :| e in b && e.addr == a;
    }
  }

  lemma EndAccount(s: State, first: Option<Entry>, a: nat)
    requires IndexOk(s) && Legal(s, End(first)) && AccountOk(s, a)
    ensures AccountOk(EndPass(s, first), a)
  {
    EndTrades(s, first, a);
    var b := s.phase.expired;
    if InBatch(s, a) {
      var i :| 0 <= i < |b| && Addrs(b)[i] == a;
      assert b[i] in b;
    }
  }

  lemma StepAccount(s: State, e: Event, a: nat)
    requires IndexOk(s) && Legal(s, e) && AccountOk(s, a)
    ensures AccountOk(Step(s, e), a)
  {
    match e
    case Add(x, t) => AddAccount(s, x, t, a);
    case Cancel(x, q) => CancelAccount(s, x, q, a);
    case Begin(expired) => BeginAccount(s, expired, a);
    case Fire => FireAccount(s, a);
    case End(first) => EndAccount(s, first, a);
    case Tick(_) =>
  }

  // --- Every run ------------------------------------------------------------------------

  // An armed timerfd lies in the future: expiry makes it readable.
  predicate FdOk(s: State) { s.fd.Armed? ==> s.fd.at <= s.clock < s.fd.deadline }

  ghost predicate TimerInv(s: State) { IndexOk(s) && CoverOk(s) && FdOk(s) && Accounts(s) }

  lemma RearmInFuture(s: State, when: int)
    ensures FdOk(Rearm(s, when))
  {
    ArmingNeverDisarms(when, s.clock);
  }

  lemma StepFd(s: State, e: Event)
    requires FdOk(s) && Legal(s, e)
    ensures FdOk(Step(s, e))
  {
    match e
    case Add(a, t) => RearmInFuture(Insert(s.(heap := s.heap[a := t]), a), t.expiration);
    case End(first) =>
      if first.Some? {
        RearmInFuture(ResetTimers(s, s.phase.expired, s.phase.now).(phase := Idle), first.value.when);
      }
    case _ =>
  }

  lemma StepKeepsInv(s: State, e: Event)
    requires TimerInv(s) && Legal(s, e)
    ensures TimerInv(Step(s, e))
  {
    StepIndex(s, e);
    StepCover(s, e);
    StepFd(s, e);
    forall a: nat ensures AccountOk(Step(s, e), a) {
      StepAccount(s, e, a);
    }
  }

  lemma {:induction false} RunKeepsInv(s: State, es: seq<Event>)
    requires TimerInv(s) && LegalRun(s, es)
    ensures TimerInv(After(s, es))
    decreases |es|
  {
    if es != [] {
      StepKeepsInv(s, es[0]);
      RunKeepsInv(Step(s, es[0]), es[1..]);
    }
  }

  // For every sequence of adds, cancels and passes, callbacks included: both indexes hold
  // the same timers and every key is its timer's current expiration.
  lemma IndexesAgree(clock: int, es: seq<Event>)
    requires 0 < clock && LegalRun(Init(clock), es)
    ensures SameTimers(After(Init(clock), es))
  {
    RunKeepsInv(Init(clock), es);
  }

  // Outside a pass the timerfd is readable or armed for no later than the earliest entry
  // (or 100us after arming), so a timer due that long has made the timerfd readable.
  lemma NoTimerMissed(clock: int, es: seq<Event>, e: Entry)
    requires 0 < clock && LegalRun(Init(clock), es)
    requires e in After(Init(clock), es).timers && After(Init(clock), es).phase.Idle?
    ensures var s := After(Init(clock), es);
            && Covers(s.fd, e.when)
            && (s.fd.Armed? && e.when <= s.clock ==> s.clock < s.fd.at + 100)
  {
    RunKeepsInv(Init(clock), es);
  }

  lemma OneShotFiresAtMostOnce(clock: int, es: seq<Event>, a: nat)
    requires 0 < clock && LegalRun(Init(clock), es)
    requires a in After(Init(clock), es).heap && !After(Init(clock), es).heap[a].repeat
    ensures Fired(After(Init(clock), es), a) <= 1
  {
    RunKeepsInv(Init(clock), es);
    assert AccountOk(After(Init(clock), es), a);
  }

  // An uncancelled repeating timer is scheduled whenever no pass runs, having been inserted
  // once by its add and once per firing.
  lemma RepeatingIsRescheduled(clock: int, es: seq<Event>, a: nat)
    requires 0 < clock && LegalRun(Init(clock), es)
    requires var s := After(Init(clock), es);
             s.phase.Idle? && a in s.heap && s.heap[a].repeat && a !in s.cancelled
    ensures var s := After(Init(clock), es);
            Scheduled(s, a) && EntryOf(s.heap, a) in s.timers && s.inserted[a] == Fired(s, a) + 1
  {
    RunKeepsInv(Init(clock), es);
    assert AccountOk(After(Init(clock), es), a);
  }

  // --- A pass -----------------------------------------------------------------------------

  predicate InsidePass(es: seq<Event>) { forall i :: 0 <= i < |es| ==> !es[i].Begin? && !es[i].End? }

  lemma {:induction false} PassStays(s: State, mid: seq<Event>)
    requires s.phase.Pass? && LegalRun(s, mid) && InsidePass(mid)
    ensures var p := After(s, mid).phase;
            p.Pass? && p.now == s.phase.now && p.expired == s.phase.expired && p.before == s.phase.before
    decreases |mid|
  {
    if mid != [] {
      PassStays(Step(s, mid[0]), mid[1..]);
    }
  }

  // Whatever the callbacks do, a pass runs exactly the timers due when it began, once each,
  // in nondecreasing order of expiration, and nothing else.
  lemma PassRunsExactlyTheDue(s: State, expired: seq<Entry>, mid: seq<Event>, first: Option<Entry>)
    requires TimerInv(s) && Legal(s, Begin(expired))
    requires LegalRun(Step(s, Begin(expired)), mid) && InsidePass(mid)
    requires Legal(After(Step(s, Begin(expired)), mid), End(first))
    ensures After(Step(s, Begin(expired)), mid).log == s.log + Addrs(expired)
    ensures forall e :: e in expired <==> e in s.timers && e.when <= s.clock
    ensures forall i, j :: 0 <= i < j < |expired| ==>
              expired[i].when <= expired[j].when && expired[i].addr != expired[j].addr
    ensures forall i, j :: 0 <= i < j < |expired| && expired[i].when == expired[j].when ==>
              expired[i].addr < expired[j].addr
  {
    var s1 := Step(s, Begin(expired));
    StepKeepsInv(s, Begin(expired));
    RunKeepsInv(s1, mid);
    PassStays(s1, mid);
    assert expired[..|expired|] == expired;
    forall i, j | 0 <= i < j < |expired|
      ensures expired[i].when <= expired[j].when && expired[i].addr != expired[j].addr
    {
      assert Less(expired[i], expired[j]);
      assert expired[i] in s.timers && expired[j] in s.timers;
    }
  }

  // What reset does with the batch.
  lemma ResetReschedules(s: State, first: Option<Entry>, e: Entry)
    requires TimerInv(s) && Legal(s, End(first)) && e in s.phase.expired
    ensures var s', a := Step(s, End(first)), e.addr;
            if s.heap[a].repeat && Id(s.heap, a) !in s.canceling then
              && s'.heap[a].expiration == s.phase.now + s.heap[a].delta
              && Entry(s.phase.now + s.heap[a].delta, a) in s'.timers && Scheduled(s', a)
            else !Scheduled(s', a) && forall w :: Entry(w, a) !in s'.timers
  {
    var s', a := Step(s, End(first)), e.addr;
    StepKeepsInv(s, End(first));
    var again := Again(s, s.phase.expired);
    if s.heap[a].repeat && Id(s.heap, a) !in s.canceling {
      assert a in again;
    } else {
      assert a !in again;
      assert !Scheduled(s', a);
    }
  }

  // --- Cancellation is final ----------------------------------------------------------------

  ghost predicate Dead(s: State, a: nat) {
    && a in s.heap && !Scheduled(s, a)
    && (InBatch(s, a) ==> !s.heap[a].repeat || Id(s.heap, a) in s.canceling)
  }

  lemma BatchUnscheduled(s: State, a: nat)
    requires IndexOk(s) && InBatch(s, a)
    ensures a in s.heap && !Scheduled(s, a)
  {
    var i :| 0 <= i < |s.phase.expired| && Addrs(s.phase.expired)[i] == a;
    assert s.phase.expired[i].addr == a;
  }

  lemma CancelKills(s: State, a: nat)
    requires IndexOk(s) && a in s.heap
    ensures Dead(CancelTimer(s, a, s.heap[a].sequence), a)
  {
    if InBatch(s, a) {
      BatchUnscheduled(s, a);
    }
  }

  // A dead timer stays dead, and its firings and pending firings only trade places.
  ghost predicate StaysDead(s: State, s': State, a: nat) {
    && Dead(s', a) && (!InBatch(s, a) ==> !InBatch(s', a))
    && Fired(s', a) + Waiting(s', a) == Fired(s, a) + Waiting(s, a)
  }

  lemma BeginDead(s: State, expired: seq<Entry>, a: nat)
    requires IndexOk(s) && Legal(s, Begin(expired)) && Dead(s, a)
    ensures StaysDead(s, BeginPass(s, expired), a) && !InBatch(BeginPass(s, expired), a)
  {
    BatchOnce(s, expired, 0, a);
    assert expired[0..] == expired;
    forall i | 0 <= i < |expired| ensures expired[i].addr != a {
      assert expired[i] in expired;
    }
  }

  lemma FireDead(s: State, a: nat)
    requires IndexOk(s) && Legal(s, Fire) && Dead(s, a)
    ensures StaysDead(s, FireNext(s), a)
  {
    FireTrades(s, a);
  }

  lemma AddDead(s: State, x: nat, t: Timer, a: nat)
    requires Legal(s, Add(x, t)) && Dead(s, a)
    ensures StaysDead(s, AddTimer(s, x, t), a)
  {
  }

  lemma CancelDead(s: State, x: nat, q: nat, a: nat)
    requires Dead(s, a)
    ensures StaysDead(s, CancelTimer(s, x, q), a)
  {
  }

  lemma EndDead(s: State, first: Option<Entry>, a: nat)
    requires IndexOk(s) && Legal(s, End(first)) && Dead(s, a)
    ensures StaysDead(s, EndPass(s, first), a)
  {
    var b := s.phase.expired;
    assert Addrs(b[|b|..]) == [];
    assert a !in Again(s, b) by {
      forall i | 0 <= i < |b| && b[i].addr == a ensures InBatch(s, a) {
        assert Addrs(b)[i] == a;
      }
    }
  }

  lemma StepDead(s: State, e: Event, a: nat)
    requires IndexOk(s) && Legal(s, e) && Dead(s, a)
    ensures StaysDead(s, Step(s, e), a)
  {
    match e
    case Begin(expired) => BeginDead(s, expired, a);
    case Fire => FireDead(s, a);
    case End(first) => EndDead(s, first, a);
    case Add(x, t) => AddDead(s, x, t, a);
    case Cancel(x, q) => CancelDead(s, x, q, a);
    case Tick(_) =>
  }

  lemma {:induction false} RunDead(s: State, es: seq<Event>, a: nat)
    requires IndexOk(s) && LegalRun(s, es) && Dead(s, a)
    ensures Dead(After(s, es), a) && IndexOk(After(s, es))
    ensures Fired(After(s, es), a) + Waiting(After(s, es), a) == Fired(s, a) + Waiting(s, a)
    ensures !InBatch(s, a) ==> !InBatch(After(s, es), a)
    decreases |es|
  {
    if es != [] {
      StepDead(s, es[0], a);
      StepIndex(s, es[0]);
      RunDead(Step(s, es[0]), es[1..], a);
    }
  }

  lemma WaitingNeedsBatch(s: State, a: nat)
    requires IndexOk(s)
    ensures Waiting(s, a) <= One(InBatch(s, a))
  {
    if s.phase.Pass? {
      var b := s.phase.expired;
      BatchOnce(s, b, s.phase.next, a);
      if i :| s.phase.next <= i < |b| && b[i].addr == a {
        assert Addrs(b)[i] == a;
      }
    }
  }

  // The callback of a already ran in the running pass.
  predicate FiredInPass(s: State, a: nat) {
    s.phase.Pass? && s.phase.next <= |s.phase.expired| && a in Addrs(s.phase.expired[..s.phase.next])
  }

  lemma FiredIsNotWaiting(s: State, a: nat)
    requires IndexOk(s) && FiredInPass(s, a)
    ensures Waiting(s, a) == 0
  {
    var b, n := s.phase.expired, s.phase.next;
    var i :| 0 <= i < n && Addrs(b[..n])[i] == a;
    BatchOnce(s, b, n, a);
    forall j | n <= j < |b| ensures b[j].addr != a {
      assert Less(b[i], b[j]) && b[i].addr == a;
    }
  }

  // Once cancelInLoop ran on an inserted timer, its callback runs no more than it still stands
  // ahead in the batch being executed: at most once, not at all if it already ran in this
  // pass or is not in its batch, and never after that pass.  So a repeating timer that cancels
  // itself never fires again.
  lemma CancelIsFinal(s: State, a: nat, es: seq<Event>, later: seq<Event>)
    requires TimerInv(s) && a in s.heap
    requires var c := CancelTimer(s, a, s.heap[a].sequence); LegalRun(c, es) && LegalRun(After(c, es), later)
    ensures var m := After(CancelTimer(s, a, s.heap[a].sequence), es);
            && Fired(m, a) + Waiting(m, a) == Fired(s, a) + Waiting(s, a)
            && Waiting(s, a) <= One(InBatch(s, a) && !FiredInPass(s, a))
            && (m.phase.Idle? ==> Fired(After(m, later), a) == Fired(m, a))
  {
    var c := CancelTimer(s, a, s.heap[a].sequence);
    CancelKills(s, a);
    CancelIndex(s, a, s.heap[a].sequence);
    CancelFrame(s, a, s.heap[a].sequence, a);
    RunDead(c, es, a);
    WaitingNeedsBatch(s, a);
    if FiredInPass(s, a) {
      FiredIsNotWaiting(s, a);
    }
    var m := After(c, es);
    RunDead(m, later, a);
    WaitingNeedsBatch(m, a);
    WaitingNeedsBatch(After(m, later), a);
  }
}
