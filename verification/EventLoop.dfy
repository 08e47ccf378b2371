/** EventLoop's task queue, quit flag and eventfd under every interleaving of the loop
    thread with any number of other threads.  Each event is one atomic action of one
    thread: a critical section of mutex_, a store to quit_, a read or write of the
    eventfd, or a private step of the loop thread. */
module EventLoops {
  import opened Bytes

  // A queued functor, named by the thread that queued it and its position there.
  datatype Task = Task(thread: nat, serial: nat)

  const LOOP_THREAD: nat := 0

  // Where the loop thread stands.
  datatype Pc =
    | Outside                   // not in loop()
    | Testing                   // about to test quit_
    | Polling                   // about to block in poll
    | Handling(drain: bool)     // handling events; drain: the eventfd was reported
    | Swapping                  // callingPendingFunctors_ set, functors not yet swapped
    | Running                   // running the batch

  datatype Loop = Loop(
    pc: Pc,
    quit: bool,
    pending: seq<Task>,         // pendingFunctors_
    batch: seq<Task>,           // functors still to run
    counter: nat,               // the eventfd
    wakers: set<nat>,           // threads between their push or quit store and wakeup()
    selfWake: bool,             // the loop thread between its push and wakeup()
    early: set<Task>,           // history: tasks the loop thread queued outside loop()
    begun: nat,                 // history: calls that are to end in a wakeup()
    absorbed: nat,              // history: wakeups the loop thread read from the eventfd
    issued: map<nat, nat>,      // history: tasks queued by each thread
    queued: seq<Task>,          // history: all tasks, in lock order
    executed: seq<Task>)        // history: tasks run

  datatype Event =
    | Push(t: nat)              // queueInLoop of another thread: the locked push
    | Wake(t: nat)              // ... and its wakeup()
    | QuitBy(t: nat)            // quit() of another thread: the store
    | LocalPush                 // queueInLoop on the loop thread
    | LocalWake                 // ... and its wakeup(), when calling functors
    | LocalQuit
    | Enter                     // loop() up to the while
    | Test                      // while (!quit_)
    | PollReturn(woken: bool)   // poll returns; woken: the eventfd is among the active
    | Drain                     // EventLoop::handleRead
    | StartPending              // doPendingFunctors sets the flag
    | Swap
    | RunTask
    | Finish                    // doPendingFunctors clears the flag

  function Init(): Loop {
    Loop(Outside, false, [], [], 0, {}, false, {}, 0, 0, map[], [], [])
  }

  predicate Calling(s: Loop) { s.pc.Swapping? || s.pc.Running? }

  function Issued(s: Loop, t: nat): nat { if t in s.issued then s.issued[t] else 0 }

  function NextTask(s: Loop, t: nat): Task { Task(t, Issued(s, t)) }

  // The locked section of queueInLoop.
  function Enqueue(s: Loop, t: nat): Loop {
    var task := NextTask(s, t);
    s.(pending := s.pending + [task], queued := s.queued + [task], issued := s.issued[t := Issued(s, t) + 1])
  }

  predicate Legal(s: Loop, e: Event) {
    // a loop thread between push and wakeup does nothing else
    && (s.selfWake ==> e.Push? || e.Wake? || e.QuitBy? || e.LocalWake?)
    && match e
       case Push(t) => t != LOOP_THREAD && t !in s.wakers
       case Wake(t) => t in s.wakers
       case QuitBy(t) => t != LOOP_THREAD && t !in s.wakers
       case LocalPush => s.pc.Outside? || s.pc.Handling? || s.pc.Running?
       case LocalWake => s.selfWake
       case LocalQuit => s.pc.Outside? || s.pc.Handling? || s.pc.Running?
       case Enter => s.pc.Outside?
       case Test => s.pc.Testing?
       case PollReturn(woken) => s.pc.Polling? && (woken ==> s.counter > 0)
       case Drain => s.pc.Handling? && s.pc.drain
       case StartPending => s.pc.Handling? && !s.pc.drain
       case Swap => s.pc.Swapping?
       case RunTask => s.pc.Running? && s.batch != []
       case Finish => s.pc.Running? && s.batch == []
  }

  function Step(s: Loop, e: Event): Loop
    requires Legal(s, e)
  {
    match e
    case Push(t) => Enqueue(s, t).(wakers := s.wakers + {t}, begun := s.begun + 1)
    case Wake(t) => s.(wakers := s.wakers - {t}, counter := s.counter + 1)
    case QuitBy(t) => s.(quit := true, wakers := s.wakers + {t}, begun := s.begun + 1)
    case LocalPush =>
      Enqueue(s, LOOP_THREAD).(selfWake := Calling(s), begun := s.begun + One(Calling(s)),
                               early := s.early + if s.pc.Outside? then {NextTask(s, LOOP_THREAD)} else {})
    case LocalWake => s.(selfWake := false, counter := s.counter + 1)
    case LocalQuit => s.(quit := true)
    case Enter => s.(quit := false, pc := Testing)
    case Test => s.(pc := if s.quit then Outside else Polling)
    case PollReturn(woken) => s.(pc := Handling(woken))
    case Drain => s.(counter := 0, absorbed := s.absorbed + s.counter, pc := Handling(false))
    case StartPending => s.(pc := Swapping)
    case Swap => s.(batch := s.pending, pending := [], pc := Running)
    case RunTask => s.(executed := s.executed + [s.batch[0]], batch := s.batch[1..])
    case Finish => s.(pc := Testing)
  }

  predicate LegalRun(s: Loop, es: seq<Event>)
    decreases |es|
  {
    es == [] || (Legal(s, es[0]) && LegalRun(Step(s, es[0]), es[1..]))
  }

  function After(s: Loop, es: seq<Event>): Loop
    requires LegalRun(s, es)
    decreases |es|
  {
    if es == [] then s else After(Step(s, es[0]), es[1..])
  }

  // --- No lost wakeup -------------------------------------------------------------------

  // The eventfd is readable, or a thread is on its way to make it so.
  predicate Signalled(s: Loop) { s.counter > 0 || s.wakers != {} || s.selfWake }

  // Every pending task was queued by the loop thread outside loop().
  predicate AllEarly(s: Loop) { forall i :: 0 <= i < |s.pending| ==> s.pending[i] in s.early }

  predicate WakeOk(s: Loop) {
    && (!s.pc.Handling? && !s.pc.Swapping? ==> Signalled(s) || AllEarly(s))
    && (s.quit && s.pc.Polling? ==> Signalled(s))
    && (s.selfWake ==> s.pc.Running?)
    && (s.batch != [] ==> s.pc.Running?)
    && LOOP_THREAD !in s.wakers
    && s.counter + |s.wakers| + One(s.selfWake) + s.absorbed == s.begun
  }

  lemma StepKeepsWake(s: Loop, e: Event)
    requires WakeOk(s) && Legal(s, e)
    ensures WakeOk(Step(s, e))
  {
    StepKeepsAccount(s, e);
    StepKeepsSignal(s, e);
  }

  lemma StepKeepsAccount(s: Loop, e: Event)
    requires WakeOk(s) && Legal(s, e)
    ensures var s' := Step(s, e); s'.counter + |s'.wakers| + One(s'.selfWake) + s'.absorbed == s'.begun
  {
  }

  lemma StepKeepsSignal(s: Loop, e: Event)
    requires WakeOk(s) && Legal(s, e)
    ensures var s' := Step(s, e);
            && (!s'.pc.Handling? && !s'.pc.Swapping? ==> Signalled(s') || AllEarly(s'))
            && (s'.quit && s'.pc.Polling? ==> Signalled(s'))
            && (s'.selfWake ==> s'.pc.Running?) && (s'.batch != [] ==> s'.pc.Running?)
            && LOOP_THREAD !in s'.wakers
  {
  }

  lemma {:induction false} RunKeepsWake(s: Loop, es: seq<Event>)
    requires WakeOk(s) && LegalRun(s, es)
    ensures WakeOk(After(s, es))
    decreases |es|
  {
    if es != [] {
      StepKeepsWake(s, es[0]);
      RunKeepsWake(Step(s, es[0]), es[1..]);
    }
  }

  // Whenever the loop is about to block with a task another thread queued, or a functor or
  // handler queued, or with a quit stored since it entered, the eventfd is readable or a
  // thread still owes it a write; whatever was queued before loop().
  lemma NoLostWakeup(es: seq<Event>)
    requires LegalRun(Init(), es)
    ensures var s := After(Init(), es);
            s.pc.Polling? && (s.quit || exists i :: 0 <= i < |s.pending| && s.pending[i] !in s.early) ==>
              s.counter > 0 || s.wakers != {}
  {
    RunKeepsWake(Init(), es);
  }

  // Wakeups are conserved: each call that is to make one is in flight, or counted in the
  // eventfd, or was read from it.
  lemma WakeupsConserved(es: seq<Event>)
    requires LegalRun(Init(), es)
    ensures var s := After(Init(), es);
            s.begun == s.absorbed + s.counter + |s.wakers| + One(s.selfWake)
  {
    RunKeepsWake(Init(), es);
  }

  // --- Flags, read off the events ---------------------------------------------------------------

  predicate Nowhere(es: seq<Event>, p: Event -> bool) { forall i :: 0 <= i < |es| ==> !p(es[i]) }

  // Some event of the run raises the flag and none after it lowers it.
  predicate Stands(es: seq<Event>, up: Event -> bool, down: Event -> bool) {
    exists i :: 0 <= i < |es| && up(es[i]) && Nowhere(es[i + 1..], down)
  }

  lemma NowhereCons(e: Event, es: seq<Event>, p: Event -> bool)
    ensures Nowhere([e] + es, p) <==> !p(e) && Nowhere(es, p)
  {
    var r := [e] + es;
    assert r[0] == e && forall i :: 0 <= i < |es| ==> r[i + 1] == es[i];
    if Nowhere(r, p) {
      assert !p(r[0]);
      forall i | 0 <= i < |es| ensures !p(es[i]) {
        assert !p(r[i + 1]);
      }
    }
  }

  lemma StandsOnto(e: Event, es: seq<Event>, up: Event -> bool, down: Event -> bool)
    requires Stands(es, up, down) || (up(e) && Nowhere(es, down))
    ensures Stands([e] + es, up, down)
  {
    var r := [e] + es;
    if Stands(es, up, down) {
      var i :| 0 <= i < |es| && up(es[i]) && Nowhere(es[i + 1..], down);
      assert r[i + 1] == es[i] && r[(i + 1) + 1..] == es[i + 1..];
    } else {
      assert r[0 + 1..] == es && up(r[0]);
    }
  }

  lemma StandsOff(e: Event, es: seq<Event>, up: Event -> bool, down: Event -> bool)
    requires Stands([e] + es, up, down)
    ensures Stands(es, up, down) || (up(e) && Nowhere(es, down))
  {
    var r := [e] + es;
    var i :| 0 <= i < |r| && up(r[i]) && Nowhere(r[i + 1..], down);
    if i > 0 {
      assert es[i - 1] == r[i] && es[(i - 1) + 1..] == r[i + 1..];
    } else {
      assert r[0 + 1..] == es;
    }
  }

  lemma StandsCons(e: Event, es: seq<Event>, up: Event -> bool, down: Event -> bool)
    ensures Stands([e] + es, up, down) <==> Stands(es, up, down) || (up(e) && Nowhere(es, down))
  {
    if Stands([e] + es, up, down) {
      StandsOff(e, es, up, down);
    } else if Stands(es, up, down) || (up(e) && Nowhere(es, down)) {
      StandsOnto(e, es, up, down);
    }
  }

  // A flag of the state that some events raise and others lower.
  ghost predicate IsFlag(f: Loop -> bool, up: Event -> bool, down: Event -> bool) {
    forall s, e :: Legal(s, e) ==> (f(Step(s, e)) <==> up(e) || (f(s) && !down(e)))
  }

  lemma {:induction false} FlagAfter(s: Loop, es: seq<Event>, f: Loop -> bool, up: Event -> bool, down: Event -> bool)
    requires LegalRun(s, es) && IsFlag(f, up, down)
    ensures f(After(s, es)) <==> Stands(es, up, down) || (f(s) && Nowhere(es, down))
    decreases |es|
  {
    if es != [] {
      FlagAfter(Step(s, es[0]), es[1..], f, up, down);
      assert es == [es[0]] + es[1..];
      StandsCons(es[0], es[1..], up, down);
      NowhereCons(es[0], es[1..], down);
    }
  }

  predicate IsWakeup(e: Event) { e.Wake? || e.LocalWake? }

  predicate IsDrain(e: Event) { e.Drain? }

  function Begins(t: nat): Event -> bool { e => e == Push(t) || e == QuitBy(t) }

  function Ends(t: nat): Event -> bool { e => e == Wake(t) }

  // Every call of another thread has made its wakeup, and every wakeup was read.
  ghost predicate Answered(es: seq<Event>) {
    !Stands(es, IsWakeup, IsDrain) && forall t: nat :: !Stands(es, Begins(t), Ends(t))
  }

  lemma CounterExactly(es: seq<Event>)
    requires LegalRun(Init(), es)
    ensures After(Init(), es).counter > 0 <==> Stands(es, IsWakeup, IsDrain)
  {
    FlagAfter(Init(), es, (s: Loop) => s.counter > 0, IsWakeup, IsDrain);
  }

  lemma WakerStep(s: Loop, e: Event, t: nat)
    requires Legal(s, e)
    ensures t in Step(s, e).wakers <==> Begins(t)(e) || (t in s.wakers && !Ends(t)(e))
  {
    match e
    case Push(_) =>
    case Wake(_) =>
    case QuitBy(_) =>
    case _ => assert Step(s, e).wakers == s.wakers;
  }

  lemma WakerExactly(es: seq<Event>, t: nat)
    requires LegalRun(Init(), es)
    ensures t in After(Init(), es).wakers <==> Stands(es, Begins(t), Ends(t))
  {
    forall s: Loop, e | Legal(s, e)
      ensures t in Step(s, e).wakers <==> Begins(t)(e) || (t in s.wakers && !Ends(t)(e))
    {
      WakerStep(s, e, t);
    }
    FlagAfter(Init(), es, (s: Loop) => t in s.wakers, Begins(t), Ends(t));
  }

  // The loop blocks unsignalled on pending work exactly when every push and quit of another
  // thread has been followed by its wakeup and the last wakeup by a read of the eventfd; and
  // then all of that work was queued by the loop thread outside loop().
  lemma StrandedExactly(es: seq<Event>)
    requires LegalRun(Init(), es)
    ensures var s := After(Init(), es);
            && (s.pc.Polling? ==> (!Signalled(s) <==> Answered(es)))
            && (s.pc.Polling? && Answered(es) ==> AllEarly(s))
  {
    RunKeepsWake(Init(), es);
    CounterExactly(es);
    forall t: nat ensures t in After(Init(), es).wakers <==> Stands(es, Begins(t), Ends(t)) {
      WakerExactly(es, t);
    }
  }

  lemma After3(s: Loop, a: Event, b: Event, c: Event)
    requires Legal(s, a) && Legal(Step(s, a), b) && Legal(Step(Step(s, a), b), c)
    ensures LegalRun(s, [a, b, c]) && After(s, [a, b, c]) == Step(Step(Step(s, a), b), c)
  {
    var s1 := Step(s, a);
    var s2 := Step(s1, b);
    RunCons(s2, c, []);
    RunCons(s1, b, [c] + []);
    RunCons(s, a, [b] + ([c] + []));
    assert [a] + ([b] + ([c] + [])) == [a, b, c];
  }

  lemma RunCons(s: Loop, e: Event, es: seq<Event>)
    requires Legal(s, e) && LegalRun(Step(s, e), es)
    ensures LegalRun(s, [e] + es) && After(s, [e] + es) == After(Step(s, e), es)
  {
    assert ([e] + es)[1..] == es;
  }

  // It does happen: queueInLoop on the loop thread, then loop().
  lemma EarlyPushStrands(es: seq<Event>)
    requires LegalRun(Init(), es)
    requires var s := After(Init(), es); s.pc.Outside? && s.begun == s.absorbed
    ensures var s := After(Init(), es);
            && LegalRun(s, [LocalPush, Enter, Test])
            && var m := After(s, [LocalPush, Enter, Test]);
               m.pc.Polling? && m.pending != [] && !Signalled(m)
  {
    RunKeepsWake(Init(), es);
    StrandedBy(After(Init(), es));
  }

  lemma StrandedBy(s: Loop)
    requires WakeOk(s) && s.pc.Outside? && s.begun == s.absorbed
    ensures LegalRun(s, [LocalPush, Enter, Test])
    ensures var m := After(s, [LocalPush, Enter, Test]); m.pc.Polling? && m.pending != [] && !Signalled(m)
  {
    assert !s.selfWake && s.wakers == {};
    var s1 := Step(s, LocalPush);
    assert s1.pending != [] && !s1.selfWake && !Signalled(s1);
    After3(s, LocalPush, Enter, Test);
  }

  // --- quit() ---------------------------------------------------------------------------------

  predicate IsQuit(e: Event) { e.QuitBy? || e.LocalQuit? }

  predicate IsEnter(e: Event) { e.Enter? }

  predicate NoEnter(es: seq<Event>) { Nowhere(es, IsEnter) }

  // A quit is kept exactly when it was stored after the last entry to loop(): some quit of
  // the run has no entry after it.
  lemma QuitKeptExactly(es: seq<Event>)
    requires LegalRun(Init(), es)
    ensures After(Init(), es).quit <==> Stands(es, IsQuit, IsEnter)
  {
    FlagAfter(Init(), es, (s: Loop) => s.quit, IsQuit, IsEnter);
  }

  // A kept quit ends the loop: after the poll in progress no other is entered.
  lemma {:induction false} QuitEndsPolling(s: Loop, es: seq<Event>)
    requires s.quit && !s.pc.Polling? && LegalRun(s, es) && NoEnter(es)
    ensures After(s, es).quit && !After(s, es).pc.Polling?
    decreases |es|
  {
    if es != [] {
      assert NoEnter(es[1..]);
      QuitEndsPolling(Step(s, es[0]), es[1..]);
    }
  }

  // quit() before loop() is forgotten: entering clears the flag.
  lemma EarlyQuitIsLost(es: seq<Event>, t: nat)
    requires LegalRun(Init(), es) && After(Init(), es).pc.Outside? && Legal(After(Init(), es), QuitBy(t))
    ensures var s := After(Init(), es);
            && LegalRun(s, [QuitBy(t), Enter, Test])
            && After(s, [QuitBy(t), Enter, Test]).pc.Polling? && !After(s, [QuitBy(t), Enter, Test]).quit
  {
    RunKeepsWake(Init(), es);
    After3(After(Init(), es), QuitBy(t), Enter, Test);
  }

  // --- Exactly once, in lock order ---------------------------------------------------------

  ghost predicate HistoryOk(s: Loop) {
    && s.queued == s.executed + s.batch + s.pending
    && (!s.pc.Running? ==> s.batch == [])
    && (forall i :: 0 <= i < |s.queued| ==> s.queued[i].serial < Issued(s, s.queued[i].thread))
    && (forall i, j :: 0 <= i < j < |s.queued| && s.queued[i].thread == s.queued[j].thread ==>
          s.queued[i].serial < s.queued[j].serial)
  }

  lemma EnqueueHistory(s: Loop, t: nat)
    requires HistoryOk(s)
    ensures HistoryOk(Enqueue(s, t))
  {
    var task := Task(t, Issued(s, t));
    Assoc(s.executed + s.batch, s.pending, [task]);
  }

  lemma StepKeepsHistory(s: Loop, e: Event)
    requires HistoryOk(s) && Legal(s, e)
    ensures HistoryOk(Step(s, e))
  {
    match e
    case Push(t) => EnqueueHistory(s, t);
    case LocalPush => EnqueueHistory(s, LOOP_THREAD);
    case Swap => assert s.executed + s.batch + s.pending == s.executed + s.pending + [];
    case RunTask =>
      assert s.batch == [s.batch[0]] + s.batch[1..];
      Assoc(s.executed, [s.batch[0]], s.batch[1..]);
    case _ =>
  }

  lemma {:induction false} RunKeepsHistory(s: Loop, es: seq<Event>)
    requires HistoryOk(s) && LegalRun(s, es)
    ensures HistoryOk(After(s, es))
    decreases |es|
  {
    if es != [] {
      StepKeepsHistory(s, es[0]);
      RunKeepsHistory(Step(s, es[0]), es[1..]);
    }
  }

  // Executed tasks, then the rest of the batch, then pendingFunctors_, are all the tasks
  // ever queued in lock order: nothing runs twice, is lost, or overtakes.
  lemma TasksRunOnceInOrder(es: seq<Event>)
    requires LegalRun(Init(), es)
    ensures var s := After(Init(), es);
            s.queued == s.executed + s.batch + s.pending && s.executed <= s.queued
  {
    RunKeepsHistory(Init(), es);
    var s := After(Init(), es);
    Assoc(s.executed, s.batch, s.pending);
  }

  // Two tasks of one thread (adding a timer, then cancelling it) run in the order it
  // queued them: when the later has run, the earlier ran before it.
  lemma ThreadOrder(es: seq<Event>, i: nat, j: nat)
    requires LegalRun(Init(), es)
    requires var s := After(Init(), es);
             && i < |s.queued| && j < |s.executed| && s.queued[i].thread == s.executed[j].thread
             && s.queued[i].serial < s.executed[j].serial
    ensures var s := After(Init(), es); i < j && s.executed[i] == s.queued[i]
  {
    RunKeepsHistory(Init(), es);
    TasksRunOnceInOrder(es);
  }

  lemma StepKeepsBoth(s: Loop, e: Event)
    requires WakeOk(s) && HistoryOk(s) && Legal(s, e)
    ensures WakeOk(Step(s, e)) && HistoryOk(Step(s, e))
  {
    StepKeepsWake(s, e);
    StepKeepsHistory(s, e);
  }

  // --- What a poll obliges the loop thread to do ----------------------------------------------------

  // poll decides whether the eventfd will be read, and reads nothing itself.
  lemma PollMeans(s: Loop, woken: bool)
    requires Legal(s, PollReturn(woken))
    ensures var s' := Step(s, PollReturn(woken));
            && s'.pc.Handling? && (s'.pc.drain <==> woken)
            && s'.counter == s.counter && s'.absorbed == s.absorbed && s'.pending == s.pending
  {
  }

  // While the report of the eventfd is unhandled, its handler can run, and it empties it.
  lemma DrainMeans(s: Loop)
    requires WakeOk(s) && s.pc == Handling(true)
    ensures Legal(s, Drain) && !Legal(s, StartPending)
    ensures var s' := Step(s, Drain);
            s'.counter == 0 && s'.absorbed == s.absorbed + s.counter && s'.pc == Handling(false)
  {
  }

  predicate Read(s: Loop, read: nat, unread: nat) {
    || s.absorbed >= read + unread
    || (s.pc == Handling(true) && s.absorbed >= read && s.counter >= unread)
  }

  lemma {:induction false} ReadStays(s: Loop, es: seq<Event>, read: nat, unread: nat)
    requires LegalRun(s, es) && Read(s, read, unread)
    ensures Read(After(s, es), read, unread)
    decreases |es|
  {
    if es != [] {
      ReadStays(Step(s, es[0]), es[1..], read, unread);
    }
  }

  // A woken poll is answered: before functors are run next, all that was in the eventfd when
  // it returned has been read.
  lemma WokenPollIsRead(s: Loop, mid: seq<Event>)
    requires Legal(s, PollReturn(true)) && LegalRun(Step(s, PollReturn(true)), mid)
    requires Legal(After(Step(s, PollReturn(true)), mid), StartPending)
    ensures After(Step(s, PollReturn(true)), mid).absorbed >= s.absorbed + s.counter
    ensures exists i :: 0 <= i < |mid| && mid[i] == Drain
  {
    var s1 := Step(s, PollReturn(true));
    ReadStays(s1, mid, s.absorbed, s.counter);
    if Nowhere(mid, IsDrain) {
      StillUnread(s1, mid);
    }
  }

  lemma {:induction false} StillUnread(s: Loop, es: seq<Event>)
    requires s.pc == Handling(true) && LegalRun(s, es) && Nowhere(es, IsDrain)
    ensures After(s, es).pc == Handling(true)
    decreases |es|
  {
    if es != [] {
      assert !IsDrain(es[0]);
      StillUnread(Step(s, es[0]), es[1..]);
    }
  }

  predicate IsPoll(e: Event) { e.PollReturn? }

  // A poll that did not report the eventfd is followed by no read of it until the next poll.
  lemma {:induction false} UnwokenReadsNothing(s: Loop, es: seq<Event>)
    requires s.pc != Handling(true) && LegalRun(s, es) && Nowhere(es, IsPoll)
    ensures Nowhere(es, IsDrain) && After(s, es).absorbed == s.absorbed
    decreases |es|
  {
    if es != [] {
      assert !IsPoll(es[0]);
      assert Nowhere(es[1..], IsPoll);
      UnwokenReadsNothing(Step(s, es[0]), es[1..]);
      assert es == [es[0]] + es[1..];
      NowhereCons(es[0], es[1..], IsDrain);
    }
  }

  // How far the tasks of ts have come.
  predicate Toward(ts: seq<Task>, s: Loop) {
    if s.pc.Handling? || s.pc.Swapping? then s.batch == [] && ts <= s.executed + s.pending
    else if s.pc.Running? then ts <= s.executed + s.batch
    else ts <= s.executed
  }

  lemma StepToward(ts: seq<Task>, s: Loop, e: Event)
    requires HistoryOk(s) && Toward(ts, s) && Legal(s, e)
    ensures Toward(ts, Step(s, e))
  {
    match e
    case RunTask =>
      assert s.batch == [s.batch[0]] + s.batch[1..];
      Assoc(s.executed, [s.batch[0]], s.batch[1..]);
    case Finish => assert s.executed + [] == s.executed;
    case Push(t) => Assoc(s.executed, s.pending, [NextTask(s, t)]);
    case LocalPush => Assoc(s.executed, s.pending, [NextTask(s, LOOP_THREAD)]);
    case _ =>
  }

  lemma {:induction false} RunToward(ts: seq<Task>, s: Loop, es: seq<Event>)
    requires HistoryOk(s) && Toward(ts, s) && LegalRun(s, es)
    ensures Toward(ts, After(s, es))
    decreases |es|
  {
    if es != [] {
      StepToward(ts, s, es[0]);
      StepKeepsHistory(s, es[0]);
      RunToward(ts, Step(s, es[0]), es[1..]);
    }
  }

  // Whatever was queued when the loop handled its events has been executed when it next
  // tests quit_, polls, or has left loop().
  lemma IterationRunsAll(es: seq<Event>, more: seq<Event>)
    requires LegalRun(Init(), es) && LegalRun(After(Init(), es), more)
    requires After(Init(), es).pc.Handling?
    requires var pc := After(After(Init(), es), more).pc; pc.Testing? || pc.Polling? || pc.Outside?
    ensures After(Init(), es).queued <= After(After(Init(), es), more).executed
  {
    RunKeepsHistory(Init(), es);
    var s := After(Init(), es);
    assert s.executed + [] == s.executed;
    RunToward(s.queued, s, more);
  }

  // --- Runs in pieces --------------------------------------------------------------------------

  lemma {:induction false} RunSplit(s: Loop, es: seq<Event>, more: seq<Event>)
    requires LegalRun(s, es + more)
    ensures LegalRun(s, es) && LegalRun(After(s, es), more) && After(s, es + more) == After(After(s, es), more)
    decreases |es|
  {
    if es == [] {
      assert es + more == more;
    } else {
      assert (es + more)[1..] == es[1..] + more;
      RunSplit(Step(s, es[0]), es[1..], more);
    }
  }

  lemma RunSnoc(s: Loop, es: seq<Event>, j: nat)
    requires LegalRun(s, es) && j < |es|
    ensures LegalRun(s, es[..j]) && Legal(After(s, es[..j]), es[j]) && LegalRun(s, es[..j + 1])
    ensures After(s, es[..j + 1]) == Step(After(s, es[..j]), es[j])
  {
    assert es == es[..j + 1] + es[j + 1..];
    RunSplit(s, es[..j + 1], es[j + 1..]);
    assert es[..j + 1] == es[..j] + [es[j]];
    RunSplit(s, es[..j], [es[j]]);
    var m := After(s, es[..j]);
    assert After(m, [es[j]]) == After(Step(m, es[j]), [es[j]][1..]);
  }

  lemma RunFirst(s: Loop, e: Event, es: seq<Event>)
    requires LegalRun(s, [e] + es)
    ensures Legal(s, e) && LegalRun(Step(s, e), es) && After(s, [e] + es) == After(Step(s, e), es)
  {
    assert ([e] + es)[1..] == es;
  }

  // What threads other than the loop's do, and what a functor does on the loop thread.
  predicate ByOthers(e: Event) { e.Push? || e.Wake? || e.QuitBy? }

  predicate InFunctor(e: Event) { ByOthers(e) || e.LocalPush? || e.LocalWake? || e.LocalQuit? }

  predicate AllByOthers(es: seq<Event>) { forall i :: 0 <= i < |es| ==> ByOthers(es[i]) }

  predicate AllInFunctor(es: seq<Event>) { forall i :: 0 <= i < |es| ==> InFunctor(es[i]) }

  // Neither touches where the loop stands or the batch it runs.
  lemma {:induction false} FunctorFrame(s: Loop, es: seq<Event>)
    requires LegalRun(s, es) && AllInFunctor(es)
    ensures var s' := After(s, es); s'.pc == s.pc && s'.batch == s.batch && s'.executed == s.executed
    decreases |es|
  {
    if es != [] {
      FunctorFrame(Step(s, es[0]), es[1..]);
    }
  }

  // The others only add to what is pending and to the eventfd.
  lemma {:induction false} OthersAdd(s: Loop, es: seq<Event>)
    requires LegalRun(s, es) && AllByOthers(es)
    ensures var s' := After(s, es);
            && s.pending <= s'.pending && s.counter <= s'.counter && s'.selfWake == s.selfWake
            && (s.quit ==> s'.quit)
    decreases |es|
  {
    if es != [] {
      OthersAdd(Step(s, es[0]), es[1..]);
    }
  }

  // One call of queueInLoop by thread t, with what the others do before its wakeup.
  function PushOf(t: nat): Event { if t == LOOP_THREAD then LocalPush else Push(t) }

  function WakeOf(t: nat): Event { if t == LOOP_THREAD then LocalWake else Wake(t) }

  function QueueRun(s: Loop, t: nat, between: seq<Event>): seq<Event> {
    [PushOf(t)] + (between + if t != LOOP_THREAD || Calling(s) then [WakeOf(t)] else [])
  }

  // One batch of doPendingFunctors: the i-th functor and everybody else do scripts[i].
  function Batch(n: nat, scripts: seq<seq<Event>>): seq<Event>
    requires n <= |scripts|
  {
    if n == 0 then [] else Batch(n - 1, scripts) + ([RunTask] + scripts[n - 1])
  }

  // The state after k functors, if they can run.
  function StateAt(s: Loop, k: nat, scripts: seq<seq<Event>>): Option<Loop>
    requires k <= |scripts|
  {
    if LegalRun(s, Batch(k, scripts)) then Some(After(s, Batch(k, scripts))) else None
  }

  lemma {:induction false} BatchPrefix(k: nat, n: nat, scripts: seq<seq<Event>>)
    requires k <= n <= |scripts|
    ensures Batch(k, scripts) <= Batch(n, scripts)
    decreases n - k
  {
    if k < n {
      BatchPrefix(k + 1, n, scripts);
    }
  }

  lemma BatchStep(s: Loop, k: nat, n: nat, scripts: seq<seq<Event>>)
    requires k < n <= |scripts| && LegalRun(s, Batch(n, scripts))
    ensures LegalRun(s, Batch(k, scripts)) && LegalRun(s, Batch(k + 1, scripts))
    ensures var m := After(s, Batch(k, scripts));
            && Legal(m, RunTask) && LegalRun(Step(m, RunTask), scripts[k])
            && After(s, Batch(k + 1, scripts)) == After(Step(m, RunTask), scripts[k])
  {
    var b, b1 := Batch(k, scripts), Batch(k + 1, scripts);
    BatchPrefix(k + 1, n, scripts);
    assert b1 + Batch(n, scripts)[|b1|..] == Batch(n, scripts);
    RunSplit(s, b1, Batch(n, scripts)[|b1|..]);
    RunSplit(s, b, [RunTask] + scripts[k]);
    RunFirst(After(s, b), RunTask, scripts[k]);
  }

  predicate AllScripts(scripts: seq<seq<Event>>) {
    forall k :: 0 <= k < |scripts| ==> AllInFunctor(scripts[k])
  }

  // From s to m the first k functors of the batch were executed, in order.
  predicate RanFirst(s: Loop, m: Loop, k: nat)
    requires k <= |s.batch|
  {
    m.pc.Running? && m.batch == s.batch[k..] && m.executed == s.executed + s.batch[..k]
  }

  lemma {:induction false} BatchRuns(s: Loop, k: nat, scripts: seq<seq<Event>>)
    requires s.pc.Running? && k <= |scripts| == |s.batch| && AllScripts(scripts)
    requires LegalRun(s, Batch(|scripts|, scripts))
    ensures LegalRun(s, Batch(k, scripts)) && RanFirst(s, After(s, Batch(k, scripts)), k)
  {
    if k == 0 {
      assert s.batch[..0] == [] && s.executed + [] == s.executed;
    } else {
      BatchRuns(s, k - 1, scripts);
      NextRuns(s, k - 1, scripts);
    }
  }

  lemma NextRuns(s: Loop, k: nat, scripts: seq<seq<Event>>)
    requires k < |scripts| == |s.batch| && AllScripts(scripts) && LegalRun(s, Batch(|scripts|, scripts))
    requires LegalRun(s, Batch(k, scripts)) && RanFirst(s, After(s, Batch(k, scripts)), k)
    ensures LegalRun(s, Batch(k + 1, scripts)) && RanFirst(s, After(s, Batch(k + 1, scripts)), k + 1)
  {
    BatchStep(s, k, |scripts|, scripts);
    OneMoreRun(s, After(s, Batch(k, scripts)), k, scripts[k]);
  }

  lemma OneMoreRun(s: Loop, m: Loop, k: nat, script: seq<Event>)
    requires k < |s.batch| && RanFirst(s, m, k)
    requires Legal(m, RunTask) && LegalRun(Step(m, RunTask), script) && AllInFunctor(script)
    ensures RanFirst(s, After(Step(m, RunTask), script), k + 1)
  {
    FunctorFrame(Step(m, RunTask), script);
    assert s.batch[..k + 1] == s.batch[..k] + [s.batch[k]];
    Assoc(s.executed, s.batch[..k], [s.batch[k]]);
  }

  // --- The methods, with any interference --------------------------------------------------------

  class EventLoop {
    var pendingFunctors: seq<Task>
    var callingPendingFunctors: bool
    var quit: bool
    var eventfd: nat
    ghost var pc: Pc
    ghost var batch: seq<Task>
    ghost var wakers: set<nat>
    ghost var selfWake: bool
    ghost var early: set<Task>
    ghost var begun: nat
    ghost var absorbed: nat
    ghost var queued: seq<Task>
    ghost var executed: seq<Task>
    var issued: map<nat, nat>

    ghost function View(): Loop
      reads this
    {
      Loop(pc, quit, pendingFunctors, batch, eventfd, wakers, selfWake, early, begun, absorbed,
           issued, queued, executed)
    }

    ghost predicate Valid()
      reads this
    {
      (callingPendingFunctors <==> Calling(View())) && HistoryOk(View()) && WakeOk(View())
    }

    constructor ()
      ensures Valid() && View() == Init()
    {
      pendingFunctors, callingPendingFunctors, quit, eventfd, issued := [], false, false, 0, map[];
      pc, batch, wakers, selfWake, early, queued, executed := Outside, [], {}, false, {}, [], [];
      begun, absorbed := 0, 0;
    }

    method LockedPush(t: nat)
      modifies this`pendingFunctors, this`issued, this`queued
      ensures View() == Enqueue(old(View()), t)
    {
      var serial := if t in issued then issued[t] else 0;
      pendingFunctors := pendingFunctors + [Task(t, serial)];
      issued := issued[t := serial + 1];
      queued := queued + [Task(t, serial)];
    }

    method PushTask(t: nat)
      requires Valid() && Legal(View(), PushOf(t))
      modifies this
      ensures Valid() && View() == Step(old(View()), PushOf(t))
      ensures callingPendingFunctors == old(callingPendingFunctors)
    {
      StepKeepsBoth(View(), PushOf(t));
      NotePush(t);
      LockedPush(t);
    }

    // What the histories record of the push.
    ghost method NotePush(t: nat)
      requires Legal(View(), PushOf(t))
      modifies this`wakers, this`selfWake, this`early, this`begun
      ensures Enqueue(View(), t) == Step(old(View()), PushOf(t))
    {
      if t == LOOP_THREAD {
        early := early + if pc.Outside? then {NextTask(View(), LOOP_THREAD)} else {};
        selfWake, begun := Calling(View()), begun + One(Calling(View()));
      } else {
        wakers, begun := wakers + {t}, begun + 1;
      }
    }

    method Wakeup(t: nat)
      requires Valid() && Legal(View(), WakeOf(t))
      modifies this`eventfd, this`wakers, this`selfWake
      ensures Valid() && View() == Step(old(View()), WakeOf(t))
    {
      ghost var s := View();
      StepKeepsBoth(s, WakeOf(t));
      eventfd := eventfd + 1;
      if t == LOOP_THREAD {
        selfWake := false;
      } else {
        wakers := wakers - {t};
      }
      assert View() == Step(s, WakeOf(t));
    }

    method StoreQuit(t: nat)
      requires Valid() && Legal(View(), if t == LOOP_THREAD then LocalQuit else QuitBy(t))
      modifies this`quit, this`wakers, this`begun
      ensures Valid() && View() == Step(old(View()), if t == LOOP_THREAD then LocalQuit else QuitBy(t))
    {
      ghost var s := View();
      StepKeepsBoth(s, if t == LOOP_THREAD then LocalQuit else QuitBy(t));
      quit := true;
      if t != LOOP_THREAD {
        wakers, begun := wakers + {t}, begun + 1;
        assert View() == Step(s, QuitBy(t));
      } else {
        assert View() == Step(s, LocalQuit);
      }
    }

    method Perform(e: Event)
      requires Valid() && InFunctor(e) && Legal(View(), e)
      modifies this
      ensures Valid() && View() == Step(old(View()), e)
      ensures callingPendingFunctors == old(callingPendingFunctors)
    {
      match e
      case Push(t) => PushTask(t);
      case Wake(t) => Wakeup(t);
      case QuitBy(t) => StoreQuit(t);
      case LocalPush => PushTask(LOOP_THREAD);
      case LocalWake => Wakeup(LOOP_THREAD);
      case LocalQuit => StoreQuit(LOOP_THREAD);
    }

    method PerformAll(es: seq<Event>)
      requires Valid() && AllInFunctor(es) && LegalRun(View(), es)
      modifies this
      ensures Valid() && View() == After(old(View()), es)
      ensures callingPendingFunctors == old(callingPendingFunctors)
    {
      ghost var s := View();
      var i := 0;
      while i < |es|
        invariant i <= |es| && Valid() && LegalRun(s, es[..i]) && View() == After(s, es[..i])
        invariant callingPendingFunctors == old(callingPendingFunctors)
      {
        RunSnoc(s, es, i);
        Perform(es[i]);
        i := i + 1;
      }
      assert es[..i] == es;
    }

    // queueInLoop by thread t, the others acting between its push and its wakeup, which is
    // made by other threads and by the loop thread while it calls functors.
    method QueueInLoop(t: nat, between: seq<Event>)
      requires Valid() && AllByOthers(between) && LegalRun(View(), QueueRun(View(), t, between))
      modifies this
      ensures Valid() && View() == After(old(View()), QueueRun(old(View()), t, between))
      // the task is queued behind those that were, and the wakeup has been made
      ensures old(pendingFunctors) + [NextTask(old(View()), t)] <= pendingFunctors
      ensures t != LOOP_THREAD || old(callingPendingFunctors) ==> old(eventfd) < eventfd
      ensures if t == LOOP_THREAD then !selfWake else t !in wakers
    {
      ghost var s := View();
      ghost var wake := if t != LOOP_THREAD || Calling(s) then [WakeOf(t)] else [];
      RunFirst(s, PushOf(t), between + wake);
      PushTask(t);
      RunSplit(View(), between, wake);
      OthersAdd(View(), between);
      PerformAll(between);
      if t != LOOP_THREAD || callingPendingFunctors {
        RunFirst(View(), WakeOf(t), []);
        Wakeup(t);
      }
    }

    // quit by thread t, with the others between the store and the wakeup.
    method Quit(t: nat, between: seq<Event>)
      requires Valid() && AllByOthers(between)
      requires t == LOOP_THREAD ==> between == [] && Legal(View(), LocalQuit)
      requires t != LOOP_THREAD ==> LegalRun(View(), [QuitBy(t)] + (between + [Wake(t)]))
      modifies this
      ensures Valid()
      ensures View() == if t == LOOP_THREAD then Step(old(View()), LocalQuit)
                        else After(old(View()), [QuitBy(t)] + (between + [Wake(t)]))
      ensures quit && (t != LOOP_THREAD ==> old(eventfd) < eventfd && t !in wakers)
    {
      ghost var s := View();
      if t != LOOP_THREAD {
        RunFirst(s, QuitBy(t), between + [Wake(t)]);
      }
      StoreQuit(t);
      if t != LOOP_THREAD {
        RunSplit(View(), between, [Wake(t)]);
        OthersAdd(View(), between);
        PerformAll(between);
        RunFirst(View(), Wake(t), []);
        Wakeup(t);
      }
    }

    // doPendingFunctors up to its loop; the others may still push before the swap.
    method StartBatch(before: seq<Event>) returns (functors: seq<Task>)
      requires Valid() && pc == Handling(false) && AllByOthers(before)
      requires LegalRun(View(), [StartPending] + (before + [Swap]))
      modifies this
      ensures Valid() && View() == After(old(View()), [StartPending] + (before + [Swap]))
      ensures functors == batch && pc == Running && executed == old(executed)
      ensures old(pendingFunctors) <= functors && pendingFunctors == []
    {
      ghost var s := View();
      RunFirst(s, StartPending, before + [Swap]);
      StepKeepsBoth(s, StartPending);
      callingPendingFunctors := true;
      pc := Swapping;
      assert View() == Step(s, StartPending);
      RunSplit(View(), before, [Swap]);
      FunctorFrame(View(), before);
      OthersAdd(View(), before);
      PerformAll(before);
      functors := SwapPending();
    }

    method SwapPending() returns (functors: seq<Task>)
      requires Valid() && Legal(View(), Swap)
      modifies this
      ensures Valid() && LegalRun(old(View()), [Swap]) && View() == After(old(View()), [Swap])
      ensures functors == batch && pc == Running && executed == old(executed)
      ensures functors == old(pendingFunctors) && pendingFunctors == []
    {
      ghost var s := View();
      StepKeepsBoth(s, Swap);
      functors := pendingFunctors;
      pendingFunctors := [];
      pc, batch := Running, functors;
      assert View() == Step(s, Swap);
      RunFirst(s, Swap, []);
    }

    // The functors run once each, in order, whatever they and the others do meanwhile.
    method RunBatch(functors: seq<Task>, scripts: seq<seq<Event>>)
      requires Valid() && pc == Running && batch == functors && |functors| == |scripts|
      requires LegalRun(View(), Batch(|scripts|, scripts)) && AllScripts(scripts)
      modifies this
      ensures Valid() && View() == After(old(View()), Batch(|scripts|, scripts))
      ensures pc == Running && batch == [] && executed == old(executed) + functors
    {
      BatchRuns(View(), |scripts|, scripts);
      assert functors[..|scripts|] == functors && functors[|scripts|..] == [];
      RunFunctors(functors, scripts);
    }

    method RunFunctors(functors: seq<Task>, scripts: seq<seq<Event>>)
      requires Valid() && pc == Running && batch == functors && |functors| == |scripts|
      requires LegalRun(View(), Batch(|scripts|, scripts)) && AllScripts(scripts)
      modifies this
      ensures Valid() && View() == After(old(View()), Batch(|scripts|, scripts))
    {
      ghost var s := View();
      var i := 0;
      while i < |functors|
        invariant i <= |functors| && Valid() && StateAt(s, i, scripts) == Some(View())
      {
        RunKth(s, functors[i], i, scripts);
        i := i + 1;
      }
    }

    method RunKth(ghost s: Loop, functor: Task, k: nat, scripts: seq<seq<Event>>)
      requires Valid() && s.pc.Running? && |s.batch| == |scripts| && LegalRun(s, Batch(|scripts|, scripts))
      requires AllScripts(scripts) && k < |scripts| && functor == s.batch[k]
      requires StateAt(s, k, scripts) == Some(View())
      modifies this
      ensures Valid() && StateAt(s, k + 1, scripts) == Some(View())
    {
      BatchRuns(s, k, scripts);
      BatchStep(s, k, |scripts|, scripts);
      RunOne(functor, scripts[k]);
    }

    method RunOne(functor: Task, script: seq<Event>)
      requires Valid() && pc == Running && batch != [] && batch[0] == functor
      requires Legal(View(), RunTask) && LegalRun(Step(View(), RunTask), script) && AllInFunctor(script)
      modifies this
      ensures Valid() && View() == After(Step(old(View()), RunTask), script)
    {
      ghost var s := View();
      StepKeepsBoth(s, RunTask);
      executed := executed + [functor];
      batch := batch[1..];
      assert View() == Step(s, RunTask);
      PerformAll(script);
    }

    // All of it: exactly the tasks pending at the swap run, in order; what is queued
    // meanwhile stays for the next time.
    method DoPendingFunctors(before: seq<Event>, scripts: seq<seq<Event>>)
      requires Valid() && pc == Handling(false) && AllByOthers(before)
      requires LegalRun(View(), [StartPending] + (before + [Swap]))
      requires var m := After(View(), [StartPending] + (before + [Swap]));
               && |m.batch| == |scripts| && LegalRun(m, Batch(|scripts|, scripts))
               && !After(m, Batch(|scripts|, scripts)).selfWake
      requires AllScripts(scripts)
      modifies this
      ensures Valid() && pc == Testing && !callingPendingFunctors
      ensures old(executed) + old(pendingFunctors) <= executed
      ensures var m := After(old(View()), [StartPending] + (before + [Swap]));
              && executed == old(executed) + m.batch
              && Legal(After(m, Batch(|scripts|, scripts)), Finish)
              && View() == Step(After(m, Batch(|scripts|, scripts)), Finish)
    {
      var functors := StartBatch(before);
      RunBatch(functors, scripts);
      StepKeepsBoth(View(), Finish);
      callingPendingFunctors := false;
      pc := Testing;
    }
  }
}
