/** TimerQueue as a step system on its loop thread.  Timer objects are cells of `heap`
    named by address; a TimerId is an (address, sequence) pair.  The steps inside a pass
    (Add and Cancel between Begin and End) are what the callbacks do. */
module Timers {
  import opened Bytes

  const MICROS_PER_SECOND: int := 1000000

  datatype Timer = Timer(expiration: int, repeat: bool, delta: nat, sequence: nat)

  // An element of timers_: ordered by time, then by address.
  datatype Entry = Entry(when: int, addr: nat)

  predicate Less(a: Entry, b: Entry) {
    a.when < b.when || (a.when == b.when && a.addr < b.addr)
  }

  type TimerId = (nat, nat)

  // The one-shot timerfd.
  datatype Fd = Disarmed | Armed(at: int, deadline: int) | Readable

  datatype Phase = Idle | Pass(now: int, expired: seq<Entry>, next: nat, before: seq<nat>)

  datatype State = State(
    heap: map<nat, Timer>,
    timers: set<Entry>,
    active: set<TimerId>,
    canceling: set<TimerId>,
    phase: Phase,               // Pass exactly while callingExpiredTimers_
    clock: int,
    fd: Fd,
    log: seq<nat>,              // history: callbacks run, by timer address
    inserted: multiset<nat>,    // history: calls of insert
    cancelled: set<nat>)        // history: timers cancelled after they were inserted

  datatype Event =
    | Add(addr: nat, timer: Timer)          // addTimerInLoop of a new Timer
    | Cancel(addr: nat, sequence: nat)      // cancelInLoop
    | Begin(expired: seq<Entry>)            // handleRead up to the callbacks
    | Fire                                  // the next callback
    | End(first: Option<Entry>)             // reset; first is timers_.begin() afterwards
    | Tick(at: int)                         // time passes, the timerfd may expire

  function Init(clock: int): State {
    State(map[], {}, {}, {}, Idle, clock, Disarmed, [], multiset{}, {})
  }

  // --- Arming the timerfd ----------------------------------------------------------

  datatype Timespec = Timespec(sec: int, nsec: int)

  function HowMuchTimeFromNow(when: int, now: int): Timespec {
    var micros := Max(when - now, 100);
    Timespec(micros / MICROS_PER_SECOND, (micros % MICROS_PER_SECOND) * 1000)
  }

  function InMicros(t: Timespec): int { t.sec * MICROS_PER_SECOND + t.nsec / 1000 }

  function Rearm(s: State, when: int): State {
    s.(fd := Armed(s.clock, s.clock + InMicros(HowMuchTimeFromNow(when, s.clock))))
  }

  // --- Operations -------------------------------------------------------------------

  predicate EarliestChanged(timers: set<Entry>, when: int) { forall e :: e in timers ==> when < e.when }

  function Id(heap: map<nat, Timer>, a: nat): TimerId
    requires a in heap
  {
    (a, heap[a].sequence)
  }

  function EntryOf(heap: map<nat, Timer>, a: nat): Entry
    requires a in heap
  {
    Entry(heap[a].expiration, a)
  }

  function Insert(s: State, a: nat): State
    requires a in s.heap
  {
    s.(timers := s.timers + {EntryOf(s.heap, a)}, active := s.active + {Id(s.heap, a)},
       inserted := s.inserted + multiset{a})
  }

  function AddTimer(s: State, a: nat, t: Timer): State {
    var s1 := Insert(s.(heap := s.heap[a := t]), a);
    if EarliestChanged(s.timers, t.expiration) then Rearm(s1, t.expiration) else s1
  }

  function CancelTimer(s: State, a: nat, q: nat): State {
    var s1 := if a in s.heap && s.heap[a].sequence == q then s.(cancelled := s.cancelled + {a}) else s;
    if a in s.heap && (a, q) in s.active then
      s1.(timers := s.timers - {EntryOf(s.heap, a)}, active := s.active - {(a, q)})
    else if s.phase.Pass? then s1.(canceling := s.canceling + {(a, q)})
    else s1
  }

  function Addrs(es: seq<Entry>): (r: seq<nat>)
    ensures |r| == |es|
  {
    seq(|es|, i requires 0 <= i < |es| => es[i].addr)
  }

  function EntrySet(es: seq<Entry>): set<Entry> { set e | e in es }

  function Ids(heap: map<nat, Timer>, es: seq<Entry>): set<TimerId> {
    set e | e in es && e.addr in heap :: Id(heap, e.addr)
  }

  function ReadTimerfd(fd: Fd): Fd { if fd.Readable? then Disarmed else fd }

  function BeginPass(s: State, expired: seq<Entry>): State {
    s.(timers := s.timers - EntrySet(expired),
       active := s.active - Ids(s.heap, expired),
       canceling := {},
       phase := Pass(s.clock, expired, 0, s.log),
       fd := ReadTimerfd(s.fd))
  }

  function FireNext(s: State): State
    requires s.phase.Pass? && s.phase.next < |s.phase.expired|
  {
    s.(log := s.log + [s.phase.expired[s.phase.next].addr],
       phase := s.phase.(next := s.phase.next + 1))
  }

  // Timers of the batch that reset puts back: repeating and not cancelled meanwhile.
  function Again(s: State, expired: seq<Entry>): set<nat> {
    set e | e in expired && e.addr in s.heap && s.heap[e.addr].repeat && Id(s.heap, e.addr) !in s.canceling
      :: e.addr
  }

  function Restarted(heap: map<nat, Timer>, again: set<nat>, now: int): map<nat, Timer> {
    map a | a in heap :: if a in again then heap[a].(expiration := now + heap[a].delta) else heap[a]
  }

  function Reinserted(s: State, again: set<nat>, now: int): State {
    var heap := Restarted(s.heap, again, now);
    s.(heap := heap,
       timers := s.timers + (set a | a in again && a in heap :: EntryOf(heap, a)),
       active := s.active + (set a | a in again && a in heap :: Id(heap, a)),
       inserted := s.inserted + multiset(again))
  }

  function ResetTimers(s: State, expired: seq<Entry>, now: int): State {
    Reinserted(s, Again(s, expired), now)
  }

  function EndPass(s: State, first: Option<Entry>): State
    requires s.phase.Pass?
  {
    var s1 := ResetTimers(s, s.phase.expired, s.phase.now).(phase := Idle);
    if first.Some? && first.value.when > 0 then Rearm(s1, first.value.when) else s1
  }

  function TickTo(s: State, at: int): State {
    s.(clock := at, fd := if s.fd.Armed? && s.fd.deadline <= at then Readable else s.fd)
  }

  // --- Runs ---------------------------------------------------------------------------

  predicate Sorted(es: seq<Entry>) { forall i, j :: 0 <= i < j < |es| ==> Less(es[i], es[j]) }

  // What getExpired copies out: exactly the entries due at `now`, in order.
  ghost predicate IsExpired(timers: set<Entry>, now: int, es: seq<Entry>) {
    Sorted(es) && forall e :: e in es <==> e in timers && e.when <= now
  }

  ghost predicate IsFirst(timers: set<Entry>, first: Option<Entry>) {
    if first.None? then timers == {}
    else first.value in timers && forall e :: e in timers ==> e == first.value || Less(first.value, e)
  }

  ghost predicate Legal(s: State, e: Event) {
    match e
    // a newly allocated Timer has an address no timer of the run had
    case Add(a, t) => a !in s.heap
    case Cancel(_, _) => true
    case Begin(expired) => s.phase.Idle? && IsExpired(s.timers, s.clock, expired)
    case Fire => s.phase.Pass? && s.phase.next < |s.phase.expired|
    case End(first) =>
      && s.phase.Pass? && s.phase.next == |s.phase.expired|
      && IsFirst(ResetTimers(s, s.phase.expired, s.phase.now).timers, first)
    case Tick(at) => s.clock <= at
  }

  ghost function Step(s: State, e: Event): State
    requires Legal(s, e)
  {
    match e
    case Add(a, t) => AddTimer(s, a, t)
    case Cancel(a, q) => CancelTimer(s, a, q)
    case Begin(expired) => BeginPass(s, expired)
    case Fire => FireNext(s)
    case End(first) => EndPass(s, first)
    case Tick(at) => TickTo(s, at)
  }

  ghost predicate LegalRun(s: State, es: seq<Event>)
    decreases |es|
  {
    es == [] || (Legal(s, es[0]) && LegalRun(Step(s, es[0]), es[1..]))
  }

  ghost function After(s: State, es: seq<Event>): State
    requires LegalRun(s, es)
    decreases |es|
  {
    if es == [] then s else After(Step(s, es[0]), es[1..])
  }

  // --- Invariants -----------------------------------------------------------------------

  // timers_ and activeTimers_ hold the same timers, keyed by their current expiration.
  ghost predicate SameTimers(s: State) {
    && (forall e :: e in s.timers ==>
          e.addr in s.heap && e == EntryOf(s.heap, e.addr) && Id(s.heap, e.addr) in s.active)
    && (forall id :: id in s.active ==>
          id.0 in s.heap && id == Id(s.heap, id.0) && EntryOf(s.heap, id.0) in s.timers)
  }

  // The batch being run: each timer once, out of both indexes, its key still current.
  ghost predicate BatchOk(s: State) {
    s.phase.Pass? ==>
      var b := s.phase.expired;
      && s.phase.next <= |b| && Sorted(b)
      && (forall i :: 0 <= i < |b| ==>
            && b[i].addr in s.heap && b[i] == EntryOf(s.heap, b[i].addr)
            && Id(s.heap, b[i].addr) !in s.active && b[i].when <= s.phase.now)
      && s.log == s.phase.before + Addrs(b[..s.phase.next])
  }

  predicate Covers(fd: Fd, when: int) {
    fd.Readable? || (fd.Armed? && fd.deadline <= Max(when, fd.at + 100))
  }

  // The timerfd will fire for every entry (during a pass: for those already due).
  ghost predicate CoverOk(s: State) {
    && 0 < s.clock
    && (s.phase.Pass? ==> 0 < s.phase.now <= s.clock)
    && forall e :: e in s.timers && (s.phase.Pass? ==> e.when <= s.phase.now) ==> Covers(s.fd, e.when)
  }
}
