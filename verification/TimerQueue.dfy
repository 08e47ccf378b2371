/** The methods of TimerQueue, proved against the steps of module Timers.  `timers` is
    the std::set in iteration order; `clock` is what Timestamp::now() would return. */
module TimerQueues {
  import opened Bytes
  import opened Timers
  import opened TimerProofs

  // The event sequence of the callbacks of a pass: scripts[k] is what the k-th one does.
  function Callbacks(n: nat, scripts: seq<seq<Event>>): seq<Event>
    requires n <= |scripts|
  {
    if n == 0 then [] else Callbacks(n - 1, scripts) + [Fire] + scripts[n - 1]
  }

  predicate IsAction(e: Event) { e.Add? || e.Cancel? || e.Tick? }

  predicate AllActions(scripts: seq<seq<Event>>) {
    forall k, i :: 0 <= k < |scripts| && 0 <= i < |scripts[k]| ==> IsAction(scripts[k][i])
  }

  // The state after k callbacks of a pass, if they can run.
  ghost function StateAt(s: State, k: nat, scripts: seq<seq<Event>>): Option<State>
    requires k <= |scripts|
  {
    if LegalRun(s, Callbacks(k, scripts)) then Some(After(s, Callbacks(k, scripts))) else None
  }

  // The sentry (now, highest address) of getExpired: everything below it is due.
  predicate BelowSentry(e: Entry, now: int) { e.when <= now }

  lemma SortedSplit(es: seq<Entry>, now: int, k: nat)
    requires Sorted(es) && k <= |es|
    requires forall i :: 0 <= i < k ==> es[i].when <= now
    requires k < |es| ==> now < es[k].when
    ensures IsExpired(EntrySet(es), now, es[..k])
    ensures EntrySet(es[k..]) == EntrySet(es) - EntrySet(es[..k])
  {
    forall e | e in es ensures e in es[..k] <==> e.when <= now {
      var i :| 0 <= i < |es| && es[i] == e;
      if i < k {
        assert es[..k][i] == e;
      } else {
        assert i > k ==> Less(es[k], es[i]);
      }
    }
    forall e | e in es[k..] ensures e !in es[..k] {
      var i :| k <= i < |es| && es[i] == e;
      assert i > k ==> Less(es[k], es[i]);
    }
    assert es == es[..k] + es[k..];
  }

  lemma SortedInsert(es: seq<Entry>, k: nat, x: Entry)
    requires Sorted(es) && k <= |es| && x !in es
    requires forall i :: 0 <= i < k ==> Less(es[i], x)
    requires k < |es| ==> !Less(es[k], x)
    ensures Sorted(es[..k] + [x] + es[k..])
    ensures EntrySet(es[..k] + [x] + es[k..]) == EntrySet(es) + {x}
  {
    var r := es[..k] + [x] + es[k..];
    forall i, j | 0 <= i < j < |r| ensures Less(r[i], r[j]) {
      if i < k && j > k {
        assert Less(es[i], es[j - 1]);
      } else if i == k {
        assert es[k] in es;
        assert Less(x, es[k]);
        assert j - 1 > k ==> Less(es[k], es[j - 1]);
      }
    }
    assert es == es[..k] + es[k..];
  }

  lemma SortedRemove(es: seq<Entry>, k: nat)
    requires Sorted(es) && k < |es|
    ensures Sorted(es[..k] + es[k + 1..])
    ensures EntrySet(es[..k] + es[k + 1..]) == EntrySet(es) - {es[k]}
  {
    var r := es[..k] + es[k + 1..];
    assert es == es[..k] + [es[k]] + es[k + 1..];
    forall e | e in r ensures e != es[k] {
      var i :| 0 <= i < |r| && r[i] == e;
      assert i < k ==> Less(es[i], es[k]);
      assert i >= k ==> Less(es[k], es[i + 1]);
    }
  }

  lemma FirstOfSorted(es: seq<Entry>)
    requires Sorted(es)
    ensures IsFirst(EntrySet(es), if es == [] then None else Some(es[0]))
  {
    forall e | e in es && e != es[0] ensures Less(es[0], e) {
      var i :| 0 <= i < |es| && es[i] == e;
    }
  }

  // One more element of the batch reset.
  lemma ReinsertOneMore(s: State, g: set<nat>, a: nat, now: int)
    requires a in s.heap && a !in g && g <= s.heap.Keys
    ensures var p := Reinserted(s, g, now);
            && a in p.heap && p.heap[a] == s.heap[a]
            && Reinserted(s, g + {a}, now) ==
               Insert(p.(heap := p.heap[a := s.heap[a].(expiration := now + s.heap[a].delta)]), a)
  {
    var p, q := Reinserted(s, g, now), Reinserted(s, g + {a}, now);
    var h := p.heap[a := s.heap[a].(expiration := now + s.heap[a].delta)];
    assert q.heap == h;
    var r := Insert(p.(heap := h), a);
    assert q.timers == r.timers;
    assert q.active == r.active;
    assert q.inserted == r.inserted;
  }

  lemma AgainSnoc(s: State, b: seq<Entry>, i: nat)
    requires i < |b| && b[i].addr in s.heap
    requires forall j :: 0 <= j < i ==> b[j].addr != b[i].addr
    ensures var a := b[i].addr;
            && a !in Again(s, b[..i]) && Again(s, b[..i]) <= s.heap.Keys
            && Again(s, b[..i + 1]) == Again(s, b[..i]) +
               if s.heap[a].repeat && Id(s.heap, a) !in s.canceling then {a} else {}
  {
    assert b[..i + 1] == b[..i] + [b[i]];
  }

  class TimerQueue {
    var heap: map<nat, Timer>
    var timers: seq<Entry>
    var active: set<TimerId>
    var canceling: set<TimerId>
    var calling: bool
    var clock: int
    var fd: Fd
    ghost var phase: Phase
    ghost var log: seq<nat>
    ghost var inserted: multiset<nat>
    ghost var cancelled: set<nat>

    ghost function View(): State
      reads this
    {
      State(heap, EntrySet(timers), active, canceling, phase, clock, fd, log, inserted, cancelled)
    }

    ghost predicate Valid()
      reads this
    {
      Sorted(timers) && (calling <==> phase.Pass?) && IndexOk(View())
    }

    constructor (now: int)
      ensures Valid() && View() == Init(now)
    {
      heap, timers, active, canceling, calling := map[], [], {}, {}, false;
      clock, fd := now, Disarmed;
      phase, log, inserted, cancelled := Idle, [], multiset{}, {};
    }

    method ResetTimerfd(when: int)
      modifies this`fd
      ensures View() == Rearm(old(View()), when)
    {
      fd := Armed(clock, clock + InMicros(HowMuchTimeFromNow(when, clock)));
    }

    // What insert asserts on entry and on exit.
    ghost predicate SameSize()
      reads this
    {
      |EntrySet(timers)| == |active|
    }

    method InsertTimer(a: nat) returns (earliestChanged: bool)
      requires Sorted(timers) && a in heap && EntryOf(heap, a) !in timers
      requires SameSize() && Id(heap, a) !in active
      modifies this`timers, this`active, this`inserted
      ensures Sorted(timers) && View() == Insert(old(View()), a) && SameSize()
      ensures earliestChanged == EarliestChanged(EntrySet(old(timers)), heap[a].expiration)
    {
      var x := EntryOf(heap, a);
      var k;
      earliestChanged, k := Place(x);
      Splice(k, x);
      active := active + {Id(heap, a)};
      inserted := inserted + multiset{a};
    }

    method Splice(k: nat, x: Entry)
      requires Sorted(timers) && k <= |timers| && x !in timers
      requires forall i :: 0 <= i < k ==> Less(timers[i], x)
      requires k < |timers| ==> !Less(timers[k], x)
      modifies this`timers
      ensures Sorted(timers) && EntrySet(timers) == EntrySet(old(timers)) + {x}
    {
      SortedInsert(timers, k, x);
      timers := timers[..k] + [x] + timers[k..];
    }

    // Where x goes in timers_, and whether that is the front.
    method Place(x: Entry) returns (earliestChanged: bool, k: nat)
      requires Sorted(timers)
      ensures earliestChanged == EarliestChanged(EntrySet(timers), x.when)
      ensures k <= |timers| && (forall i :: 0 <= i < k ==> Less(timers[i], x))
      ensures k < |timers| ==> !Less(timers[k], x)
    {
      earliestChanged := timers == [] || x.when < timers[0].when;
      FirstOfSorted(timers);
      k := 0;
      while k < |timers| && Less(timers[k], x)
        invariant k <= |timers| && forall i :: 0 <= i < k ==> Less(timers[i], x)
      {
        k := k + 1;
      }
    }

    method AddTimerInLoop(a: nat, t: Timer)
      requires Valid() && Legal(View(), Add(a, t))
      modifies this
      ensures Valid() && View() == AddTimer(old(View()), a, t)
    {
      ghost var s := View();
      AddIndex(s, a, t);
      SizesAgree(s);
      NotYetIn(s, a, t);
      heap := heap[a := t];
      ghost var h := View();
      assert h == s.(heap := s.heap[a := t]);
      InsertNew(a);
      assert View() == AddTimer(s, a, t);
    }

    method InsertNew(a: nat)
      requires Sorted(timers) && a in heap && EntryOf(heap, a) !in View().timers
      requires SameSize() && Id(heap, a) !in active
      modifies this`timers, this`active, this`inserted, this`fd
      ensures Sorted(timers)
      ensures View() == var s1 := Insert(old(View()), a);
                        if EarliestChanged(old(View()).timers, heap[a].expiration)
                        then Rearm(s1, heap[a].expiration) else s1
    {
      var earliestChanged := InsertTimer(a);
      if earliestChanged {
        ResetTimerfd(heap[a].expiration);
      }
    }

    method CancelInLoop(a: nat, q: nat)
      requires Valid()
      modifies this
      ensures Valid() && View() == CancelTimer(old(View()), a, q)
    {
      CancelIndex(View(), a, q);
      if a in heap && heap[a].sequence == q {
        cancelled := cancelled + {a};
      }
      if (a, q) in active {
        var x := EntryOf(heap, a);
        var k := 0;
        while timers[k] != x
          invariant k < |timers| && x in timers[k..]
          decreases |timers| - k
        {
          k := k + 1;
        }
        SortedRemove(timers, k);
        timers := timers[..k] + timers[k + 1..];
        active := active - {(a, q)};
      } else if calling {
        canceling := canceling + {(a, q)};
      }
    }

    method EraseActive(expired: seq<Entry>)
      requires forall i :: 0 <= i < |expired| ==> expired[i].addr in heap
      modifies this`active
      ensures active == old(active) - Ids(heap, expired)
    {
      var i := 0;
      while i < |expired|
        invariant i <= |expired| && active == old(active) - Ids(heap, expired[..i])
      {
        assert expired[..i + 1] == expired[..i] + [expired[i]];
        active := active - {Id(heap, expired[i].addr)};
        i := i + 1;
      }
      assert expired[..i] == expired;
    }

    method GetExpired(now: int) returns (expired: seq<Entry>)
      requires Sorted(timers) && forall i :: 0 <= i < |timers| ==> timers[i].addr in heap
      modifies this`timers, this`active
      ensures IsExpired(EntrySet(old(timers)), now, expired) && Sorted(timers)
      ensures EntrySet(timers) == EntrySet(old(timers)) - EntrySet(expired)
      ensures active == old(active) - Ids(heap, expired)
    {
      var k := 0;
      while k < |timers| && BelowSentry(timers[k], now)
        invariant k <= |timers| && forall i :: 0 <= i < k ==> timers[i].when <= now
      {
        k := k + 1;
      }
      SortedSplit(timers, now, k);
      expired := timers[..k];
      timers := timers[k..];
      EraseActive(expired);
    }

    // Timer::restart
    method Restart(a: nat, now: int)
      requires a in heap
      modifies this`heap
      ensures heap == old(heap)[a := old(heap[a]).(expiration :=
                if old(heap[a]).repeat then now + old(heap[a]).delta else 0)]
    {
      var t := heap[a];
      heap := heap[a := t.(expiration := if t.repeat then now + t.delta else 0)];
    }

    // The body of reset's loop.
    method ResetOne(a: nat, now: int)
      requires Sorted(timers) && a in heap && forall w :: Entry(w, a) !in EntrySet(timers)
      requires SameSize() && Id(heap, a) !in active
      modifies this`heap, this`timers, this`active, this`inserted
      ensures Sorted(timers) && View() == ResetOneTimer(old(View()), a, now)
    {
      ghost var s := View();
      if heap[a].repeat && Id(heap, a) !in canceling {
        Restart(a, now);
        assert View() == s.(heap := s.heap[a := s.heap[a].(expiration := now + s.heap[a].delta)]);
        assert Entry(heap[a].expiration, a) !in EntrySet(timers) && Id(heap, a) == Id(s.heap, a);
        var _ := InsertTimer(a);
      }
    }

    // The loop of reset.
    method Reinsert(expired: seq<Entry>, now: int)
      requires Sorted(timers) && IndexOk(View())
      requires phase.Pass? && expired == phase.expired && now == phase.now
      modifies this`heap, this`timers, this`active, this`inserted
      ensures Sorted(timers) && View() == ResetTimers(old(View()), expired, now)
    {
      ghost var s := View();
      EmptyReset(s, now);
      assert expired[..0] == [];
      var i := 0;
      while i < |expired|
        invariant i <= |expired| && Sorted(timers) && View() == ResetTimers(s, expired[..i], now)
      {
        ResetIteration(s, i);
        SizesAgree(View());
        ResetOne(expired[i].addr, now);
        i := i + 1;
      }
      assert expired[..i] == expired;
    }

    method Reset(expired: seq<Entry>, now: int) returns (ghost first: Option<Entry>)
      requires Sorted(timers) && !calling && IndexOk(View())
      requires phase.Pass? && expired == phase.expired && now == phase.now && phase.next == |expired|
      modifies this
      ensures Legal(old(View()), End(first)) && View() == EndPass(old(View()), first) && Valid()
    {
      ghost var s := View();
      ResetIndex(s);
      Reinsert(expired, now);
      first := if timers == [] then None else Some(timers[0]);
      FirstOfSorted(timers);
      EndIndex(s, first);
      phase := Idle;
      if timers != [] {
        assert timers[0] in EntrySet(timers);
        var nextExpire := heap[timers[0].addr].expiration;
        if nextExpire > 0 {
          ResetTimerfd(nextExpire);
        }
      }
    }

    method Perform(e: Event)
      requires Valid() && IsAction(e) && Legal(View(), e)
      modifies this
      ensures Valid() && View() == Step(old(View()), e)
    {
      StepIndex(View(), e);
      match e
      case Add(a, t) => AddTimerInLoop(a, t);
      case Cancel(a, q) => CancelInLoop(a, q);
      case Tick(at) =>
        clock := at;
        if fd.Armed? && fd.deadline <= at {
          fd := Readable;
        }
    }

    // What one callback does.
    method RunScript(script: seq<Event>)
      requires Valid() && LegalRun(View(), script)
      requires forall i :: 0 <= i < |script| ==> IsAction(script[i])
      modifies this
      ensures Valid() && View() == After(old(View()), script)
    {
      ghost var s := View();
      var i := 0;
      while i < |script|
        invariant i <= |script| && Valid() && LegalRun(s, script[..i]) && View() == After(s, script[..i])
      {
        RunSnoc(s, script, i);
        Perform(script[i]);
        i := i + 1;
      }
      assert script[..i] == script;
    }

    // readTimerfd and getExpired, up to the first callback.
    method StartPass() returns (expired: seq<Entry>)
      requires Valid() && phase.Idle?
      modifies this
      ensures Legal(old(View()), Begin(expired)) && View() == BeginPass(old(View()), expired) && Valid()
    {
      ghost var s := View();
      assert forall i :: 0 <= i < |timers| ==> timers[i] in EntrySet(timers);
      var now := clock;
      fd := ReadTimerfd(fd);
      expired := GetExpired(now);
      BeginIndex(s, expired);
      calling := true;
      canceling := {};
      phase := Pass(now, expired, 0, log);
    }

    method RunCallback(script: seq<Event>)
      requires Valid() && Legal(View(), Fire) && LegalRun(FireNext(View()), script)
      requires forall i :: 0 <= i < |script| ==> IsAction(script[i])
      modifies this
      ensures Valid() && View() == After(FireNext(old(View())), script)
    {
      FireIndex(View());
      log := log + [phase.expired[phase.next].addr];
      phase := phase.(next := phase.next + 1);
      RunScript(script);
    }

    // The loop of handleRead over the batch, the k-th callback doing what scripts[k] says.
    method RunBatch(n: nat, scripts: seq<seq<Event>>)
      requires Valid() && n <= |scripts| && LegalRun(View(), Callbacks(n, scripts)) && AllActions(scripts)
      modifies this
      ensures Valid() && View() == After(old(View()), Callbacks(n, scripts))
    {
      ghost var s := View();
      var k := 0;
      while k < n
        invariant k <= n && Valid() && StateAt(s, k, scripts) == Some(View())
      {
        RunKth(s, k, n, scripts);
        k := k + 1;
      }
    }

    method RunKth(ghost s: State, k: nat, ghost n: nat, scripts: seq<seq<Event>>)
      requires Valid() && k < n <= |scripts| && LegalRun(s, Callbacks(n, scripts)) && AllActions(scripts)
      requires StateAt(s, k, scripts) == Some(View())
      modifies this
      ensures Valid() && StateAt(s, k + 1, scripts) == Some(View())
    {
      CallbackStep(s, k, n, scripts);
      RunCallback(scripts[k]);
    }

    method HandleRead(scripts: seq<seq<Event>>) returns (expired: seq<Entry>, ghost first: Option<Entry>)
      requires Valid() && phase.Idle?
      requires AllActions(scripts)
      requires forall es :: Legal(View(), Begin(es)) ==>
                 |es| <= |scripts| && LegalRun(BeginPass(View(), es), Callbacks(|es|, scripts))
      modifies this
      ensures Valid() && |expired| <= |scripts| && Legal(old(View()), Begin(expired))
      ensures var s := BeginPass(old(View()), expired);
              && LegalRun(s, Callbacks(|expired|, scripts))
              && Legal(After(s, Callbacks(|expired|, scripts)), End(first))
              && View() == EndPass(After(s, Callbacks(|expired|, scripts)), first)
    {
      var now := clock;
      expired := StartPass();
      PassDone(View(), scripts);
      RunBatch(|expired|, scripts);
      calling := false;
      first := Reset(expired, now);
    }
  }

  // A timer at a new address is in neither index.
  lemma NotYetIn(s: State, a: nat, t: Timer)
    requires SameTimers(s) && a !in s.heap
    ensures EntryOf(s.heap[a := t], a) !in s.timers && Id(s.heap[a := t], a) !in s.active
  {
  }

  // After as many callbacks as the batch holds, all of it has fired.
  lemma PassDone(s: State, scripts: seq<seq<Event>>)
    requires s.phase.Pass? && s.phase.next == 0 && |s.phase.expired| <= |scripts|
    requires AllActions(scripts)
    requires LegalRun(s, Callbacks(|s.phase.expired|, scripts))
    ensures After(s, Callbacks(|s.phase.expired|, scripts)).phase == s.phase.(next := |s.phase.expired|)
  {
    FiredCount(s, |s.phase.expired|, |s.phase.expired|, scripts);
  }

  // After k callbacks the pass stands at its k-th timer.
  ghost predicate FiredTo(s: State, k: nat, scripts: seq<seq<Event>>)
    requires s.phase.Pass? && k <= |scripts|
  {
    var m := StateAt(s, k, scripts);
    m.Some? && m.value.phase == s.phase.(next := k)
  }

  lemma {:induction false} FiredCount(s: State, k: nat, n: nat, scripts: seq<seq<Event>>)
    requires s.phase.Pass? && s.phase.next == 0 && k <= n <= |scripts|
    requires AllActions(scripts)
    requires LegalRun(s, Callbacks(n, scripts))
    ensures FiredTo(s, k, scripts)
  {
    if k > 0 {
      FiredCount(s, k - 1, n, scripts);
      OneMoreFired(s, k - 1, n, scripts);
    }
  }

  lemma OneMoreFired(s: State, k: nat, n: nat, scripts: seq<seq<Event>>)
    requires s.phase.Pass? && k < n <= |scripts| && LegalRun(s, Callbacks(n, scripts)) && AllActions(scripts)
    requires FiredTo(s, k, scripts)
    ensures FiredTo(s, k + 1, scripts)
  {
    CallbackStep(s, k, n, scripts);
    ScriptKeepsPhase(FireNext(After(s, Callbacks(k, scripts))), scripts[k]);
  }

  lemma {:induction false} ScriptKeepsPhase(s: State, script: seq<Event>)
    requires LegalRun(s, script) && forall i :: 0 <= i < |script| ==> IsAction(script[i])
    ensures After(s, script).phase == s.phase
    decreases |script|
  {
    if script != [] {
      ScriptKeepsPhase(Step(s, script[0]), script[1..]);
    }
  }

  lemma {:induction false} RunSplit(s: State, es: seq<Event>, more: seq<Event>)
    requires LegalRun(s, es + more)
    ensures LegalRun(s, es) && LegalRun(After(s, es), more) && After(s, es + more) == After(After(s, es), more)
    decreases |es|
  {
    if es == [] {
      assert es + more == more;
    } else {
      assert (es + more)[1..] == es[1..] + more;
      RunSplit(Step(s, es[0]), es[1..], more);
    }
  }

  lemma RunSnoc(s: State, es: seq<Event>, j: nat)
    requires LegalRun(s, es) && j < |es|
    ensures LegalRun(s, es[..j]) && Legal(After(s, es[..j]), es[j]) && LegalRun(s, es[..j + 1])
    ensures After(s, es[..j + 1]) == Step(After(s, es[..j]), es[j])
  {
    assert es == es[..j + 1] + es[j + 1..];
    RunSplit(s, es[..j + 1], es[j + 1..]);
    assert es[..j + 1] == es[..j] + [es[j]];
    RunSplit(s, es[..j], [es[j]]);
    var m := After(s, es[..j]);
    assert After(m, [es[j]]) == After(Step(m, es[j]), [es[j]][1..]);
  }

  lemma {:induction false} CallbacksPrefix(k: nat, n: nat, scripts: seq<seq<Event>>)
    requires k <= n <= |scripts|
    ensures Callbacks(k, scripts) <= Callbacks(n, scripts)
    decreases n - k
  {
    if k < n {
      CallbacksPrefix(k + 1, n, scripts);
    }
  }

  // The k-th callback: fire, then its script.
  lemma CallbackStep(s: State, k: nat, n: nat, scripts: seq<seq<Event>>)
    requires k < n <= |scripts| && LegalRun(s, Callbacks(n, scripts))
    ensures LegalRun(s, Callbacks(k, scripts)) && LegalRun(s, Callbacks(k + 1, scripts))
    ensures var m := After(s, Callbacks(k, scripts));
            && Legal(m, Fire) && LegalRun(Step(m, Fire), scripts[k])
            && After(s, Callbacks(k + 1, scripts)) == After(Step(m, Fire), scripts[k])
  {
    var c, c1 := Callbacks(k, scripts), Callbacks(k + 1, scripts);
    CallbacksPrefix(k + 1, n, scripts);
    assert c1 + Callbacks(n, scripts)[|c1|..] == Callbacks(n, scripts);
    RunSplit(s, c1, Callbacks(n, scripts)[|c1|..]);
    assert c1 == c + ([Fire] + scripts[k]);
    FireThen(s, c, scripts[k]);
  }

  lemma FireThen(s: State, c: seq<Event>, script: seq<Event>)
    requires LegalRun(s, c + ([Fire] + script))
    ensures LegalRun(s, c)
    ensures var m := After(s, c);
            && Legal(m, Fire) && LegalRun(Step(m, Fire), script)
            && After(s, c + ([Fire] + script)) == After(Step(m, Fire), script)
  {
    RunSplit(s, c, [Fire] + script);
    assert ([Fire] + script)[1..] == script;
  }

  predicate Returns(s: State, a: nat)
    requires a in s.heap
  {
    s.heap[a].repeat && Id(s.heap, a) !in s.canceling
  }

  ghost function ResetOneTimer(s: State, a: nat, now: int): State
    requires a in s.heap
  {
    if Returns(s, a) then
      Insert(s.(heap := s.heap[a := s.heap[a].(expiration := now + s.heap[a].delta)]), a)
    else s
  }

  lemma EmptyReset(s: State, now: int)
    ensures ResetTimers(s, [], now) == s
  {
    assert Again(s, []) == {};
    assert Restarted(s.heap, {}, now) == s.heap;
  }

  // The state before the i-th iteration of reset's loop, and what the iteration makes of it.
  lemma ResetIteration(s: State, i: nat)
    requires IndexOk(s) && s.phase.Pass? && i < |s.phase.expired|
    ensures var b, now := s.phase.expired, s.phase.now;
            var p, a := ResetTimers(s, b[..i], now), b[i].addr;
            && a in p.heap && (forall w :: Entry(w, a) !in p.timers)
            && SameTimers(p) && Id(p.heap, a) !in p.active
            && ResetTimers(s, b[..i + 1], now) == ResetOneTimer(p, a, now)
  {
    var b, now := s.phase.expired, s.phase.now;
    var a := b[i].addr;
    assert a in s.heap && Id(s.heap, a) !in s.active;
    forall j | 0 <= j < i ensures b[j].addr != a {
      assert Less(b[j], b[i]);
    }
    AgainSnoc(s, b, i);
    var g := Again(s, b[..i]);
    OneTimer(s, g, a, now);
    assert Again(s, b[..i + 1]) == if Returns(s, a) then g + {a} else g;
    NotBack(s, g, a, now);
    assert forall x :: x in g ==> x in s.heap && Id(s.heap, x) !in s.active;
    ReinsertIndex(s, g, now);
  }

  lemma OneTimer(s: State, g: set<nat>, a: nat, now: int)
    requires a in s.heap && a !in g && g <= s.heap.Keys
    ensures a in Reinserted(s, g, now).heap
    ensures Reinserted(s, if Returns(s, a) then g + {a} else g, now) == ResetOneTimer(Reinserted(s, g, now), a, now)
  {
    ReinsertOneMore(s, g, a, now);
  }

  lemma NotBack(s: State, g: set<nat>, a: nat, now: int)
    requires SameTimers(s) && a in s.heap && Id(s.heap, a) !in s.active && a !in g
    ensures forall w :: Entry(w, a) !in Reinserted(s, g, now).timers
  {
  }
}
