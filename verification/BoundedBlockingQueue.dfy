/** base/BoundedBlockingQueue as a two-condition monitor.  A step is what one thread does
    between acquiring the mutex and releasing it (by returning or by waiting). */
module BlockingQueue {
  import opened Bytes

  datatype Monitor<T> = Monitor(
    capacity: nat,
    queue: seq<T>,
    sleepingTakers: set<nat>,     // blocked in notEmpty_.wait()
    wokenTakers: set<nat>,        // signalled, still to get the mutex back
    sleepingPutters: map<nat, T>, // blocked in notFull_.wait(), with the value they bring
    wokenPutters: map<nat, T>,
    putHistory: seq<T>,
    takenHistory: seq<T>)

  datatype Step<T> =
    | Put(t: nat, x: T, wake: Option<nat>)
    | ResumePut(t: nat, wake: Option<nat>)
    | Take(t: nat, wake: Option<nat>)
    | ResumeTake(t: nat, wake: Option<nat>)
    | SpuriousPut(t: nat)
    | SpuriousTake(t: nat)

  function Init<T>(capacity: nat): Monitor<T> {
    Monitor(capacity, [], {}, {}, map[], map[], [], [])
  }

  predicate Full<T>(m: Monitor<T>) { |m.queue| >= m.capacity }

  predicate Absent<T>(m: Monitor<T>, t: nat) {
    t !in m.sleepingTakers && t !in m.wokenTakers && t !in m.sleepingPutters && t !in m.wokenPutters
  }

  // pthread_cond_signal wakes one sleeper if there is one; `wake` is the one a signal in this
  // step would wake.
  predicate Signals(sleepers: set<nat>, wake: Option<nat>) {
    if wake.Some? then wake.value in sleepers else sleepers == {}
  }

  function NotifyTakers<T>(m: Monitor<T>, wake: Option<nat>): Monitor<T> {
    if wake.None? then m else
    m.(sleepingTakers := m.sleepingTakers - {wake.value}, wokenTakers := m.wokenTakers + {wake.value})
  }

  function NotifyPutters<T>(m: Monitor<T>, wake: Option<nat>): Monitor<T>
    requires wake.Some? ==> wake.value in m.sleepingPutters
  {
    if wake.None? then m else
    m.(sleepingPutters := m.sleepingPutters - {wake.value},
       wokenPutters := m.wokenPutters[wake.value := m.sleepingPutters[wake.value]])
  }

  // The body of put from the loop test on, run by t holding the mutex.
  function PutSection<T>(m: Monitor<T>, t: nat, x: T, wake: Option<nat>): Monitor<T> {
    if Full(m) then m.(sleepingPutters := m.sleepingPutters[t := x])
    else NotifyTakers(m.(queue := m.queue + [x], putHistory := m.putHistory + [x]), wake)
  }

  function TakeSection<T>(m: Monitor<T>, t: nat, wake: Option<nat>): Monitor<T>
    requires wake.Some? ==> wake.value in m.sleepingPutters
  {
    if m.queue == [] then m.(sleepingTakers := m.sleepingTakers + {t})
    else NotifyPutters(m.(queue := m.queue[1..], takenHistory := m.takenHistory + [m.queue[0]]), wake)
  }

  predicate Legal<T>(m: Monitor<T>, s: Step<T>) {
    match s
    case Put(t, _, wake) => Absent(m, t) && Signals(m.sleepingTakers, wake)
    case ResumePut(t, wake) => t in m.wokenPutters && Signals(m.sleepingTakers, wake)
    case Take(t, wake) => Absent(m, t) && Signals(m.sleepingPutters.Keys, wake)
    case ResumeTake(t, wake) => t in m.wokenTakers && Signals(m.sleepingPutters.Keys, wake)
    case SpuriousPut(t) => t in m.sleepingPutters
    case SpuriousTake(t) => t in m.sleepingTakers
  }

  function Next<T>(m: Monitor<T>, s: Step<T>): Monitor<T>
    requires Legal(m, s)
  {
    match s
    case Put(t, x, wake) => PutSection(m, t, x, wake)
    case ResumePut(t, wake) =>
      PutSection(m.(wokenPutters := m.wokenPutters - {t}), t, m.wokenPutters[t], wake)
    case Take(t, wake) => TakeSection(m, t, wake)
    case ResumeTake(t, wake) => TakeSection(m.(wokenTakers := m.wokenTakers - {t}), t, wake)
    case SpuriousPut(t) => NotifyPutters(m, Some(t))
    case SpuriousTake(t) => NotifyTakers(m, Some(t))
  }

  // Work is never stranded: while someone sleeps, every item (every free slot) is matched
  // by a woken thread on its way to it.
  ghost predicate Inv<T>(m: Monitor<T>) {
    && |m.queue| <= m.capacity
    && m.putHistory == m.takenHistory + m.queue
    && m.sleepingTakers !! m.wokenTakers
    && m.sleepingPutters.Keys !! m.wokenPutters.Keys
    && (m.sleepingTakers != {} ==> |m.queue| <= |m.wokenTakers|)
    && (m.sleepingPutters.Keys != {} ==> m.capacity - |m.queue| <= |m.wokenPutters.Keys|)
  }

  lemma PutKeepsInv<T>(m: Monitor<T>, t: nat, x: T, wake: Option<nat>)
    requires t !in m.wokenPutters && t !in m.sleepingPutters && Signals(m.sleepingTakers, wake)
    requires |m.queue| <= m.capacity && m.putHistory == m.takenHistory + m.queue
    requires m.sleepingTakers !! m.wokenTakers && m.sleepingPutters.Keys !! m.wokenPutters.Keys
    requires m.sleepingTakers != {} ==> |m.queue| <= |m.wokenTakers|
    requires m.sleepingPutters.Keys != {} ==> m.capacity - |m.queue| <= |m.wokenPutters.Keys| + 1
    ensures Inv(PutSection(m, t, x, wake))
  {
    if !Full(m) {
      Assoc(m.takenHistory, m.queue, [x]);
      WakeTaker(m, wake);
    } else {
      assert PutSection(m, t, x, wake).sleepingPutters.Keys == m.sleepingPutters.Keys + {t};
    }
  }

  lemma WakeTaker<T>(m: Monitor<T>, wake: Option<nat>)
    requires Signals(m.sleepingTakers, wake) && m.sleepingTakers !! m.wokenTakers
    ensures var m' := NotifyTakers(m, wake);
            && m'.sleepingTakers !! m'.wokenTakers
            && (wake.Some? ==> |m'.wokenTakers| == |m.wokenTakers| + 1)
  {
  }

  lemma TakeKeepsInv<T>(m: Monitor<T>, t: nat, wake: Option<nat>)
    requires t !in m.wokenTakers && t !in m.sleepingTakers && Signals(m.sleepingPutters.Keys, wake)
    requires |m.queue| <= m.capacity && m.putHistory == m.takenHistory + m.queue
    requires m.sleepingTakers !! m.wokenTakers && m.sleepingPutters.Keys !! m.wokenPutters.Keys
    requires m.sleepingTakers != {} ==> |m.queue| <= |m.wokenTakers| + 1
    requires m.sleepingPutters.Keys != {} ==> m.capacity - |m.queue| <= |m.wokenPutters.Keys|
    ensures Inv(TakeSection(m, t, wake))
  {
    if m.queue != [] {
      assert m.queue == [m.queue[0]] + m.queue[1..];
      Assoc(m.takenHistory, [m.queue[0]], m.queue[1..]);
      WakePutter(m, wake);
    }
  }

  lemma WakePutter<T>(m: Monitor<T>, wake: Option<nat>)
    requires Signals(m.sleepingPutters.Keys, wake) && m.sleepingPutters.Keys !! m.wokenPutters.Keys
    ensures var m' := NotifyPutters(m, wake);
            && m'.sleepingPutters.Keys !! m'.wokenPutters.Keys
            && (wake.Some? ==> |m'.wokenPutters.Keys| == |m.wokenPutters.Keys| + 1)
  {
    if wake.Some? {
      assert NotifyPutters(m, wake).wokenPutters.Keys == m.wokenPutters.Keys + {wake.value};
    }
  }

  lemma StepKeepsInv<T>(m: Monitor<T>, s: Step<T>)
    requires Inv(m) && Legal(m, s)
    ensures Inv(Next(m, s))
  {
    match s
    case Put(t, x, wake) => PutKeepsInv(m, t, x, wake);
    case ResumePut(t, wake) =>
      var m1 := m.(wokenPutters := m.wokenPutters - {t});
      assert m1.wokenPutters.Keys == m.wokenPutters.Keys - {t};
      PutKeepsInv(m1, t, m.wokenPutters[t], wake);
    case Take(t, wake) => TakeKeepsInv(m, t, wake);
    case ResumeTake(t, wake) => TakeKeepsInv(m.(wokenTakers := m.wokenTakers - {t}), t, wake);
    case SpuriousPut(t) => WakePutter(m, Some(t));
    case SpuriousTake(t) =>
  }

  ghost predicate LegalRun<T(!new)>(m: Monitor<T>, ss: seq<Step<T>>)
    decreases |ss|
  {
    ss == [] || (Legal(m, ss[0]) && LegalRun(Next(m, ss[0]), ss[1..]))
  }

  ghost function After<T(!new)>(m: Monitor<T>, ss: seq<Step<T>>): Monitor<T>
    requires LegalRun(m, ss)
    decreases |ss|
  {
    if ss == [] then m else After(Next(m, ss[0]), ss[1..])
  }

  lemma {:induction false} RunKeepsInv<T(!new)>(m: Monitor<T>, ss: seq<Step<T>>)
    requires Inv(m) && LegalRun(m, ss)
    ensures Inv(After(m, ss))
    decreases |ss|
  {
    if ss != [] {
      StepKeepsInv(m, ss[0]);
      RunKeepsInv(Next(m, ss[0]), ss[1..]);
    }
  }

  // For any number of threads and any spurious wakeups: takes return puts in FIFO order,
  // the size stays within the capacity, and nobody sleeps on work nobody is coming for.
  lemma NothingStranded<T(!new)>(capacity: nat, ss: seq<Step<T>>)
    requires LegalRun(Init(capacity), ss)
    ensures var m := After(Init(capacity), ss);
            && m.takenHistory <= m.putHistory && |m.queue| <= m.capacity
            && m.putHistory == m.takenHistory + m.queue
            && (m.sleepingTakers != {} ==> |m.queue| <= |m.wokenTakers|)
            && (m.sleepingPutters.Keys != {} ==> m.capacity - |m.queue| <= |m.wokenPutters.Keys|)
  {
    RunKeepsInv<T>(Init(capacity), ss);
  }

  lemma {:induction false} CapacityFixed<T(!new)>(m: Monitor<T>, ss: seq<Step<T>>)
    requires LegalRun(m, ss)
    ensures After(m, ss).capacity == m.capacity
    decreases |ss|
  {
    if ss != [] {
      CapacityFixed(Next(m, ss[0]), ss[1..]);
    }
  }

  // Takers and putters can both sleep with nobody woken only if the capacity is zero.
  lemma NoMutualSleep<T(!new)>(capacity: nat, ss: seq<Step<T>>)
    requires LegalRun(Init(capacity), ss) && 1 <= capacity
    ensures var m := After(Init(capacity), ss);
            m.sleepingTakers != {} && m.sleepingPutters.Keys != {} ==>
              m.wokenTakers != {} || m.wokenPutters.Keys != {}
  {
    RunKeepsInv<T>(Init(capacity), ss);
    CapacityFixed<T>(Init(capacity), ss);
  }

  // ... and at capacity zero they do.
  lemma MutualSleepAtZero<T(!new)>(x: T)
    ensures var ss := [Put(1, x, None), Take(2, Some(1))];
            && LegalRun(Init(0), ss)
            && var m := After(Init(0), ss);
               m.sleepingTakers == {2} && m.sleepingPutters.Keys == {1}
               && m.wokenTakers == {} && m.wokenPutters.Keys == {}
  {
    var ss: seq<Step<T>> := [Put(1, x, None), Take(2, Some(1))];
    var m0: Monitor<T> := Init(0);
    var m1 := m0.(sleepingPutters := map[1 := x]);
    assert Next(m0, ss[0]) == m1;
    assert ss[1..] == [ss[1]] && ss[1..][1..] == [];
    assert Legal(m1, ss[1]);
    var m2 := m1.(sleepingTakers := {2});
    assert Next(m1, ss[1]) == m2;
    assert After(m1, ss[1..]) == After(m2, []);
    assert After(m0, ss) == After(m1, ss[1..]);
  }

  class BoundedBlockingQueue<T> {
    const capacity: nat
    var queue: seq<T>
    var sleepingTakers: set<nat>
    var wokenTakers: set<nat>
    var sleepingPutters: map<nat, T>
    var wokenPutters: map<nat, T>
    ghost var putHistory: seq<T>
    ghost var takenHistory: seq<T>

    ghost function View(): Monitor<T>
      reads this
    {
      Monitor(capacity, queue, sleepingTakers, wokenTakers, sleepingPutters, wokenPutters, putHistory, takenHistory)
    }

    ghost predicate Valid()
      reads this
    {
      Inv(View())
    }

    constructor (maxSize: nat)
      ensures Valid() && View() == Init(maxSize)
    {
      capacity, queue := maxSize, [];
      sleepingTakers, wokenTakers, sleepingPutters, wokenPutters := {}, {}, map[], map[];
      putHistory, takenHistory := [], [];
    }

    // put, from the test of its loop to the next wait or to the end.
    method PutBody(t: nat, x: T, wake: Option<nat>) returns (done: bool)
      requires Signals(sleepingTakers, wake)
      modifies this
      ensures View() == PutSection(old(View()), t, x, wake) && done == !old(Full(View()))
    {
      done := |queue| < capacity;
      if !done {
        sleepingPutters := sleepingPutters[t := x];
      } else {
        queue, putHistory := queue + [x], putHistory + [x];
        if wake.Some? {
          sleepingTakers, wokenTakers := sleepingTakers - {wake.value}, wokenTakers + {wake.value};
        }
      }
    }

    method TakeBody(t: nat, wake: Option<nat>) returns (r: Option<T>)
      requires Signals(sleepingPutters.Keys, wake)
      modifies this
      ensures View() == TakeSection(old(View()), t, wake)
      ensures r == if old(queue) == [] then None else Some(old(queue)[0])
    {
      if queue == [] {
        sleepingTakers := sleepingTakers + {t};
        return None;
      }
      r := Some(queue[0]);
      queue, takenHistory := queue[1..], takenHistory + [queue[0]];
      if wake.Some? {
        sleepingPutters, wokenPutters :=
          sleepingPutters - {wake.value}, wokenPutters[wake.value := sleepingPutters[wake.value]];
      }
    }

    // put by a thread that arrives: with room x is queued last and one sleeping taker is
    // woken, otherwise t sleeps with x.
    method Put(t: nat, x: T, wake: Option<nat>) returns (done: bool)
      requires Valid() && Legal(View(), Step.Put(t, x, wake))
      modifies this
      ensures Valid() && View() == Next(old(View()), Step.Put(t, x, wake))
      ensures done <==> |old(queue)| < capacity
      ensures queue == old(queue) + if done then [x] else []
      ensures sleepingPutters == if done then old(sleepingPutters) else old(sleepingPutters)[t := x]
      ensures done && wake.Some? ==> wake.value in wokenTakers && wake.value !in sleepingTakers
    {
      StepKeepsInv(View(), Step.Put(t, x, wake));
      done := PutBody(t, x, wake);
    }

    // put by a thread that waited in its loop, woken or not by a signal.
    method ResumePut(t: nat, wake: Option<nat>) returns (done: bool)
      requires Valid() && Legal(View(), Step.ResumePut(t, wake))
      modifies this
      ensures Valid() && View() == Next(old(View()), Step.ResumePut(t, wake))
      ensures done <==> |old(queue)| < capacity
      ensures queue == old(queue) + if done then [old(wokenPutters)[t]] else []
    {
      StepKeepsInv(View(), Step.ResumePut(t, wake));
      var x := wokenPutters[t];
      wokenPutters := wokenPutters - {t};
      done := PutBody(t, x, wake);
    }

    // take by a thread that arrives: the oldest item, and one sleeping putter is woken, or
    // t sleeps.
    method Take(t: nat, wake: Option<nat>) returns (r: Option<T>)
      requires Valid() && Legal(View(), Step.Take(t, wake))
      modifies this
      ensures Valid() && View() == Next(old(View()), Step.Take(t, wake))
      ensures r.None? <==> old(queue) == []
      ensures r.Some? ==> old(queue) == [r.value] + queue && takenHistory == old(takenHistory) + [r.value]
      ensures r.None? ==> queue == [] && t in sleepingTakers
    {
      StepKeepsInv(View(), Step.Take(t, wake));
      r := TakeBody(t, wake);
    }

    method ResumeTake(t: nat, wake: Option<nat>) returns (r: Option<T>)
      requires Valid() && Legal(View(), Step.ResumeTake(t, wake))
      modifies this
      ensures Valid() && View() == Next(old(View()), Step.ResumeTake(t, wake))
      ensures r.None? <==> old(queue) == []
      ensures r.Some? ==> old(queue) == [r.value] + queue && takenHistory == old(takenHistory) + [r.value]
      ensures r.None? ==> queue == [] && t in sleepingTakers
    {
      StepKeepsInv(View(), Step.ResumeTake(t, wake));
      wokenTakers := wokenTakers - {t};
      r := TakeBody(t, wake);
    }
  }
}
