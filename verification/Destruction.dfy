/** ~TcpServer: its connectDestroyed calls run at once on the base loop and as tasks on the
    loops of the pool, while the server is already gone.  When is that safe? */
module Destruction {
  import opened Bytes
  import opened ChannelIndex
  import opened Connection
  import opened Server
  import opened LifeSteps
  import opened Lifecycle

  // --- Where the destroy runs -----------------------------------------------------------

  // On the base loop, after any run at all: exactly a kConnected connection survives.
  lemma DropSafeExactly(n: nat, es: seq<Event>, c: nat)
    requires LegalRun(Init(n), es) && Allowed(After(Init(n), es), Drop(c))
    requires After(Init(n), es).conns[c].loop == 0
    ensures Asserts(After(Init(n), es), Drop(c)) <==> After(Init(n), es).conns[c].conn.state == Connected
  {
    InitInv(n);
    RunKeepsInv(Init(n), es);
    assert LifeOk(LifeOf(After(Init(n), es), c));
  }

  // The establish task of a connection is the first of its tasks.
  ghost predicate EstablishFirst(q: seq<Task>) {
    forall i, j :: 0 <= i < j < |q| && q[j].EstablishT? ==> q[i].c != q[j].c
  }

  ghost predicate Ordered(s: Sys) { forall l :: 0 <= l < |s.queues| ==> EstablishFirst(s.queues[l]) }

  lemma ExtendsFirst(q: seq<Task>, q': seq<Task>)
    requires EstablishFirst(q) && Extends(q, q')
    ensures EstablishFirst(q')
  {
    forall i, j | 0 <= i < j < |q'| && q'[j].EstablishT? ensures q'[i].c != q'[j].c {
      assert q'[i] == q[i] && q'[j] == q[j];
    }
  }

  lemma AcceptFirst(s: Sys, mark: Option<nat>, l: nat)
    requires WellFormed(s) && Allowed(s, Accept(mark)) && l < |s.queues| && EstablishFirst(s.queues[l])
    ensures |Step(s, Accept(mark)).queues| == |s.queues| && EstablishFirst(Step(s, Accept(mark)).queues[l])
  {
    AcceptQueues(s, mark, l);
    forall i | 0 <= i < |s.queues[l]| ensures s.queues[l][i].c != s.nextConnId {
      assert Placed(s, l, s.queues[l][i]);
    }
  }

  lemma StepOrdered(s: Sys, e: Event)
    requires WellFormed(s) && Ordered(s) && Allowed(s, e) && !SwitchesRead(e)
    ensures Ordered(Step(s, e))
  {
    var s' := Step(s, e);
    if e.Accept? { AcceptQueues(s, e.mark, 0); } else { StepExtends(s, e, 0); }
    forall l | 0 <= l < |s'.queues| ensures EstablishFirst(s'.queues[l]) {
      assert EstablishFirst(s.queues[l]);
      if e.Accept? {
        AcceptFirst(s, e.mark, l);
      } else {
        StepExtends(s, e, l);
        ExtendsFirst(Rest(s, e, l), s'.queues[l]);
      }
    }
  }

  lemma FirstOrdered(s: Sys, es: seq<Event>) returns (s': Sys)
    requires Inv(s) && Ordered(s) && LegalRun(s, es) && es != [] && !SwitchesRead(es[0])
    ensures Inv(s') && Ordered(s') && LegalRun(s', es[1..]) && After(s, es) == After(s', es[1..])
  {
    StepOrdered(s, es[0]);
    StepKeepsInv(s, es[0]);
    s' := Step(s, es[0]);
  }

  lemma {:induction false} RunOrdered(s: Sys, es: seq<Event>)
    requires Inv(s) && Ordered(s) && LegalRun(s, es) && NoneSwitches(es)
    ensures Ordered(After(s, es))
    decreases |es|
  {
    if es != [] {
      var s' := FirstOrdered(s, es);
      RunOrdered(s', es[1..]);
    }
  }

  lemma EstablishStillThere(s: Sys, c: nat)
    requires Good(s, c) && s.conns[c].established == 0
    ensures EstablishT(c) in s.queues[s.conns[c].loop]
  {
    assert Count(s, s.conns[c].loop, EstablishT(c)) == 1;
  }

  lemma NoEstablishBehind(q: seq<Task>)
    requires EstablishFirst(q) && q != [] && !q[0].EstablishT?
    ensures EstablishT(q[0].c) !in q
  {
  }

  // On a loop of the pool, where the destroy waits its turn behind the establish task: it
  // never meets kConnecting, and passes exactly when it does not meet kDisconnecting.
  lemma DestroyRunsExactly(n: nat, es: seq<Event>, l: nat, c: nat)
    requires QuietRun(Init(n), es)
    requires var s := After(Init(n), es); Free(s, l) && s.queues[l] != [] && s.queues[l][0] == DestroyT(c)
    ensures var s := After(Init(n), es);
            && c in s.conns && s.conns[c].conn.state != Connecting
            && Allowed(s, RunTask(l, WouldBlock))
            && (Asserts(s, RunTask(l, WouldBlock)) <==> s.conns[c].conn.state != Disconnecting)
  {
    InitInv(n);
    RunKeepsQuiet(Init(n), es);
    RunOrdered(Init(n), es);
    DestroyHead(After(Init(n), es), l, c);
  }

  lemma DestroyHead(s: Sys, l: nat, c: nat)
    requires Quiet(s) && Ordered(s) && Free(s, l) && s.queues[l] != [] && s.queues[l][0] == DestroyT(c)
    ensures c in s.conns && s.conns[c].conn.state != Connecting && Allowed(s, RunTask(l, WouldBlock))
    ensures Asserts(s, RunTask(l, WouldBlock)) <==> s.conns[c].conn.state != Disconnecting
  {
    assert Placed(s, l, s.queues[l][0]) && EstablishFirst(s.queues[l]);
    HeadCounted(s, l, DestroyT(c));
    NoEstablishBehind(s.queues[l]);
    DueIsEstablished(s, c);
    DueExactly(LifeOf(s, c));
  }

  lemma DueIsEstablished(s: Sys, c: nat)
    requires Quiet(s) && c in s.conns && EstablishT(c) !in s.queues[s.conns[c].loop]
    ensures s.conns[c].established == 1
  {
    assert LifeOk(LifeOf(s, c));
    if s.conns[c].established == 0 {
      EstablishStillThere(s, c);
    }
  }

  lemma DueExactly(v: Life)
    requires LifeOk(v) && QuietLife(v) && v.r.established == 1 && v.destroy > 0
    ensures v.r.conn.state != Connecting
    ensures (CanDestroy(v.r.conn) && ChannelOk(v.r.conn)) <==> v.r.conn.state != Disconnecting
  {
  }

  // --- What the loops and the kernel may do afterwards ------------------------------------

  // No user calls any more; calls already on their way still land.
  predicate Unattended(e: Event) {
    e.RunTask? || e.PushBy? || e.Drop? || (e.Report? && !ClosesTwice(e.rev, e.rd))
  }

  predicate AllUnattended(es: seq<Event>) { forall i :: 0 <= i < |es| ==> Unattended(es[i]) }

  predicate Breaks(s: Sys, es: seq<Event>) { AllUnattended(es) && FailsIn(s, es) }

  ghost predicate CanFail(s: Sys) { exists es :: Breaks(s, es) }

  // Nothing is left to do for c but a drop on the base loop or a last destroy.
  predicate SettledConn(s: Sys, c: nat)
    requires c in s.conns
  {
    var r := s.conns[c];
    && r.established == 1 && r.closed == r.erased
    && if c in s.connections then r.loop == 0 && r.conn.state == Connected else r.conn.state == Disconnected
  }

  ghost predicate Settled(s: Sys) {
    Quiet(s) && !s.alive && forall c :: c in s.conns ==> SettledConn(s, c)
  }

  lemma SettledReport(s: Sys, c: nat, rev: Revents, rd: ReadResult, w: WriteResult)
    requires Settled(s)
    ensures !Allowed(s, Report(c, rev, rd, w))
  {
    if Known(s, c) && Reportable(s.conns[c].conn) {
      WatchedLives(s, c);
      assert SettledConn(s, c);
    }
  }

  // What a task at the head of a queue says about the life of its connection.
  predicate SettledFor(v: Life, t: Task) {
    && !v.inMap && v.r.conn.state == Disconnected
    && (t.DestroyT? || t.ForceCloseT? || t.SendT? || t.ShutdownT?)
    && (t.DestroyT? ==> CanDestroy(v.r.conn)) && ChannelOk(v.r.conn)
  }

  lemma SettledLife(v: Life, t: Task)
    requires LifeOk(v) && QuietLife(v) && !SwitchTask(t)
    requires v.r.established == 1 && v.r.closed == v.r.erased && !v.inMap && v.r.conn.state == Disconnected
    requires (t.EstablishT? ==> v.establish > 0) && (t.RemoveT? ==> v.remove > 0) && (t.DestroyT? ==> v.destroy > 0)
    ensures SettledFor(v, t)
  {
  }

  // A task that can run in a settled state belongs to a connection out of the map, and is
  // its destroy or comes to nothing.
  lemma SettledTask(s: Sys, l: nat, w: WriteResult)
    requires Settled(s) && Allowed(s, RunTask(l, w))
    ensures var t := s.queues[l][0]; t.c in s.conns && SettledFor(LifeOf(s, t.c), t)
  {
    var t := s.queues[l][0];
    assert Placed(s, l, t) && SettledConn(s, t.c) && LifeOk(LifeOf(s, t.c)) && QuietLife(LifeOf(s, t.c));
    HeadCounted(s, l, t);
    SettledLife(LifeOf(s, t.c), t);
  }

  lemma SettledExecute(s: Sys, t: Task, w: WriteResult, c: nat)
    requires Known(s, t.c) && (t.SendT? ==> Possible(w, |t.data|)) && s.conns[t.c].conn.state == Disconnected
    requires t.DestroyT? || t.ForceCloseT? || t.SendT? || t.ShutdownT?
    requires c in s.conns && t.c !in s.connections && SettledConn(s, c)
    ensures var s' := Execute(s, t, w); c in s'.conns && SettledConn(s', c)
  {
    if t.SendT? {
      SendIsOutputStep(s.conns[t.c].conn, t.data, w);
    }
  }

  lemma SettledRuns(s: Sys, l: nat, w: WriteResult)
    requires Settled(s) && Allowed(s, RunTask(l, w))
    ensures Asserts(s, RunTask(l, w)) && Quiet(Step(s, RunTask(l, w))) && SameFrame(s, Step(s, RunTask(l, w)))
  {
    SettledTask(s, l, w);
    StepKeepsQuiet(s, RunTask(l, w));
    StepSame(s, RunTask(l, w));
  }

  lemma SettledRun(s: Sys, l: nat, w: WriteResult)
    requires Settled(s) && Allowed(s, RunTask(l, w))
    ensures Asserts(s, RunTask(l, w)) && Settled(Step(s, RunTask(l, w)))
  {
    var e, t := RunTask(l, w), s.queues[l][0];
    SettledTask(s, l, w);
    SettledRuns(s, l, w);
    forall c | c in Step(s, e).conns ensures SettledConn(Step(s, e), c) {
      assert SettledConn(s, c) && SettledConn(Pop(s, l), c);
      SettledExecute(Pop(s, l), t, w, c);
    }
  }

  lemma SettledDropped(s: Sys, d: nat, c: nat)
    requires Known(s, d) && d in s.connections && SettledConn(s, d) && c in s.conns && SettledConn(s, c)
    ensures c in DropConn(s, d).conns && SettledConn(DropConn(s, d), c)
  {
  }

  lemma SettledDrop(s: Sys, d: nat)
    requires Settled(s) && Allowed(s, Drop(d))
    ensures Asserts(s, Drop(d)) && Settled(Step(s, Drop(d)))
  {
    assert SettledConn(s, d) && LifeOk(LifeOf(s, d)) && QuietLife(LifeOf(s, d));
    StepKeepsQuiet(s, Drop(d));
    StepSame(s, Drop(d));
    forall c | c in Step(s, Drop(d)).conns ensures SettledConn(Step(s, Drop(d)), c) {
      assert SettledConn(s, c);
      SettledDropped(s, d, c);
    }
  }

  lemma SettledPush(s: Sys, t: nat)
    requires Settled(s) && Allowed(s, PushBy(t))
    ensures Settled(Step(s, PushBy(t)))
  {
    StepKeepsQuiet(s, PushBy(t));
    var s' := LandPush(s, t);
    assert s'.conns == s.conns && s'.connections == s.connections;
    forall c | c in s'.conns ensures SettledConn(s', c) {
      assert SettledConn(s, c);
    }
  }

  lemma SettledStep(s: Sys, e: Event)
    requires Settled(s) && Allowed(s, e) && Unattended(e)
    ensures Asserts(s, e) && Settled(Step(s, e))
  {
    match e
    case RunTask(l, w) => SettledRun(s, l, w);
    case Report(c, rev, rd, w) => SettledReport(s, c, rev, rd, w);
    case Drop(d) => SettledDrop(s, d);
    case PushBy(t) => SettledPush(s, t);
  }

  lemma FirstSettled(s: Sys, es: seq<Event>) returns (s': Sys)
    requires Settled(s) && es != [] && Unattended(es[0]) && FailsIn(s, es)
    ensures Settled(s') && FailsIn(s', es[1..])
  {
    SettledStep(s, es[0]);
    s' := Step(s, es[0]);
  }

  lemma {:induction false} SettledIsSafe(s: Sys, es: seq<Event>)
    requires Settled(s) && AllUnattended(es)
    ensures !FailsIn(s, es)
    decreases |es|
  {
    if FailsIn(s, es) {
      var s' := FirstSettled(s, es);
      SettledIsSafe(s', es[1..]);
    }
  }

  // --- ... and how they break an unsettled state --------------------------------------------

  lemma FailsNow(s: Sys, e: Event)
    requires Allowed(s, e) && !Asserts(s, e)
    ensures FailsIn(s, [e])
  {
  }

  lemma FailsLater(s: Sys, e: Event, es: seq<Event>)
    requires Allowed(s, e) && (Asserts(s, e) ==> FailsIn(Step(s, e), es))
    ensures FailsIn(s, [e] + es)
  {
    assert ([e] + es)[1..] == es;
  }

  lemma CanFailBy(s: Sys, e: Event)
    requires Allowed(s, e) && Unattended(e) && (Asserts(s, e) ==> CanFail(Step(s, e)))
    ensures CanFail(s)
  {
    if Asserts(s, e) {
      var es :| Breaks(Step(s, e), es);
      FailsLater(s, e, es);
      assert Breaks(s, [e] + es);
    } else {
      FailsNow(s, e);
      assert Breaks(s, [e]);
    }
  }

  function Hangup(c: nat): Event {
    Report(c, Revents(true, false, false, false, false, false), Data, WouldBlock)
  }

  // A pool connection that is watched can hang up, and its close meets the dead server.
  lemma WatchedFails(s: Sys, c: nat)
    requires Quiet(s) && !s.alive && c in s.conns && s.conns[c].loop != 0 && Living(s.conns[c])
    ensures CanFail(s)
  {
    assert LifeOk(LifeOf(s, c)) && QuietLife(LifeOf(s, c));
    CanFailBy(s, Hangup(c));
  }

  ghost predicate Waits(s: Sys, l: nat, i: nat, t: Task) {
    Quiet(s) && !s.alive && l < |s.queues| && i < |s.queues[l]| && s.queues[l][i] == t
  }

  // The task at the head runs, and the others move up.
  lemma MoveUp(s: Sys, l: nat, i: nat, t: Task) returns (k: nat)
    requires Waits(s, l, i, t) && 0 < i && Legal(s, RunTask(l, WouldBlock))
    ensures k < i && Waits(Step(s, RunTask(l, WouldBlock)), l, k, t)
  {
    var e := RunTask(l, WouldBlock);
    StepKeepsQuiet(s, e);
    StepAlive(s, e);
    StepExtends(s, e, l);
    k := NextPlace(s.queues[l], Step(s, e).queues[l], i);
  }

  lemma NextPlace(q: seq<Task>, q': seq<Task>, i: nat) returns (k: nat)
    requires 0 < i < |q| && q[1..] <= q'
    ensures k < i && k < |q'| && q'[k] == q[i]
  {
    k := i - 1;
  }

  lemma HeadAllowed(s: Sys, l: nat, i: nat, t: Task)
    requires Waits(s, l, i, t) && Free(s, l)
    ensures Allowed(s, RunTask(l, WouldBlock))
  {
    assert Placed(s, l, s.queues[l][0]);
  }

  lemma StaysEmpty(s: Sys, t: Task)
    requires Known(s, t.c) && s.connections == {}
    ensures Execute(s, t, WouldBlock).connections == {}
  {
  }

  lemma RunHead(s: Sys, l: nat, i: nat, t: Task) returns (e: Event, k: nat)
    requires Waits(s, l, i, t) && Free(s, l)
    ensures Allowed(s, e) && Unattended(e)
    ensures Asserts(s, e) && 0 < i ==> k < i && Waits(Step(s, e), l, k, t)
    ensures s.connections == {} ==> Step(s, e).connections == {}
    ensures i == 0 && t.RemoveT? ==> !Asserts(s, e)
    ensures i == 0 && t.EstablishT? && Asserts(s, e) && l != 0 ==> CanFail(Step(s, e))
  {
    e, k := RunTask(l, WouldBlock), 0;
    HeadAllowed(s, l, i, t);
    if Asserts(s, e) {
      if i > 0 {
        k := MoveUp(s, l, i, t);
      } else if t.EstablishT? && l != 0 {
        EstablishedFails(s, l, t.c);
      }
    }
    if s.connections == {} {
      StaysEmpty(Pop(s, l), s.queues[l][0]);
    }
  }

  lemma EstablishRuns(s: Sys, l: nat, c: nat)
    requires Quiet(s) && l < |s.queues| && s.queues[l] != [] && s.queues[l][0] == EstablishT(c)
    ensures c in s.conns && c in EstablishConn(Pop(s, l), c).conns
    ensures Living(EstablishConn(Pop(s, l), c).conns[c]) && EstablishConn(Pop(s, l), c).conns[c].loop == l
  {
    assert Placed(s, l, EstablishT(c));
    var v := LifeOf(s, c);
    assert LifeOk(v);
    HeadCounted(s, l, EstablishT(c));
    FirstLife(v);
  }

  lemma FirstLife(v: Life)
    requires LifeOk(v) && v.establish > 0
    ensures Living(EstablishedRec(v.r)) && EstablishedRec(v.r).loop == v.r.loop
  {
  }

  // Once a connection of the pool is established on a dead server, it can hang up.
  lemma EstablishedFails(s: Sys, l: nat, c: nat)
    requires Waits(s, l, 0, EstablishT(c)) && l != 0 && Legal(s, RunTask(l, WouldBlock))
    ensures CanFail(Step(s, RunTask(l, WouldBlock)))
  {
    EstablishRuns(s, l, c);
    StepKeepsQuiet(s, RunTask(l, WouldBlock));
    WatchedFails(EstablishConn(Pop(s, l), c), c);
  }

  ghost predicate Doomed(s: Sys, l: nat, i: nat, t: Task) {
    Waits(s, l, i, t) && Free(s, l) && (t.RemoveT? || (t.EstablishT? && l != 0))
  }

  // Running the head brings t nearer, unless something fails on the way.
  lemma Advance(s: Sys, l: nat, i: nat, t: Task) returns (s': Sys, k: nat, failed: bool)
    requires Doomed(s, l, i, t)
    ensures failed || CanFail(s') ==> CanFail(s)
    ensures !failed ==> k < i && Doomed(s', l, k, t)
  {
    var e;
    e, k := RunHead(s, l, i, t);
    s' := Step(s, e);
    failed := i == 0 || !Asserts(s, e);
    if failed || CanFail(s') {
      CanFailBy(s, e);
    }
  }

  // A remove task that is left over meets the dead server; so does the hangup of a pool
  // connection once its establish task ran.
  lemma {:induction false} DoomedFails(s: Sys, l: nat, i: nat, t: Task)
    requires Doomed(s, l, i, t)
    ensures CanFail(s)
    decreases i
  {
    var s', k, failed := Advance(s, l, i, t);
    if !failed {
      DoomedFails(s', l, k, t);
    }
  }

  lemma DropShrinks(s: Sys, d: nat)
    requires Known(s, d) && d in s.connections
    ensures DropConn(s, d).connections == s.connections - {d} && |DropConn(s, d).connections| < |s.connections|
  {
    assert |s.connections - {d}| == |s.connections| - 1;
  }

  lemma DropKeepsWaiting(s: Sys, d: nat, i: nat, t: Task)
    requires Waits(s, 0, i, t) && Legal(s, Drop(d))
    ensures Waits(Step(s, Drop(d)), 0, i, t)
  {
    StepKeepsQuiet(s, Drop(d));
    StepAlive(s, Drop(d));
    StepExtends(s, Drop(d), 0);
  }

  lemma PickDrop(s: Sys, d: nat, i: nat, t: Task) returns (e: Event)
    requires Waits(s, 0, i, t) && d in s.connections && Known(s, d)
    ensures Allowed(s, e) && Unattended(e)
    ensures Asserts(s, e) ==> Waits(Step(s, e), 0, i, t)
    ensures |Step(s, e).connections| < |s.connections|
  {
    e := Drop(d);
    DropShrinks(s, d);
    if Asserts(s, e) {
      DropKeepsWaiting(s, d, i, t);
    }
  }

  // The destructor first drops what is in the map.
  lemma DropOne(s: Sys, i: nat, t: Task) returns (s': Sys, failed: bool)
    requires Waits(s, 0, i, t) && s.connections != {}
    ensures failed || CanFail(s') ==> CanFail(s)
    ensures !failed ==> Waits(s', 0, i, t) && |s'.connections| < |s.connections|
  {
    var d :| d in s.connections;
    var e := PickDrop(s, d, i, t);
    s' := Step(s, e);
    failed := !Asserts(s, e);
    if failed || CanFail(s') {
      CanFailBy(s, e);
    }
  }

  lemma {:induction false} PendingRemoveFails(s: Sys, i: nat, c: nat)
    requires Waits(s, 0, i, RemoveT(c))
    ensures CanFail(s)
    decreases |s.connections|
  {
    if s.connections == {} {
      DoomedFails(s, 0, i, RemoveT(c));
    } else {
      var s', failed := DropOne(s, i, RemoveT(c));
      if !failed {
        PendingRemoveFails(s', i, c);
      }
    }
  }

  lemma PoolFails(s: Sys, c: nat)
    requires Quiet(s) && !s.alive && c in s.connections && s.conns[c].loop != 0
    ensures CanFail(s)
  {
    var r, v := s.conns[c], LifeOf(s, c);
    assert LifeOk(v);
    if r.established == 0 {
      EstablishStillThere(s, c);
      var i :| 0 <= i < |s.queues[r.loop]| && s.queues[r.loop][i] == EstablishT(c);
      DoomedFails(s, r.loop, i, EstablishT(c));
    } else if r.closed == 0 {
      WatchedFails(s, c);
    } else {
      assert Count(s, 0, RemoveT(c)) == 1;
      var i :| 0 <= i < |s.queues[0]| && s.queues[0][i] == RemoveT(c);
      PendingRemoveFails(s, i, c);
    }
  }

  lemma UnsettledFails(s: Sys, c: nat)
    requires Quiet(s) && !s.alive && c in s.connections
    requires s.conns[c].loop != 0 || s.conns[c].conn.state != Connected
    ensures CanFail(s)
  {
    if s.conns[c].loop != 0 {
      PoolFails(s, c);
    } else {
      assert LifeOk(LifeOf(s, c));
      CanFailBy(s, Drop(c));
    }
  }

  predicate Steady(s: Sys) {
    forall c :: c in s.connections ==> c in s.conns && s.conns[c].loop == 0 && s.conns[c].conn.state == Connected
  }

  // Reached calmly, after the start of ~TcpServer the loops and the kernel can fail an
  // assertion or meet the dead server if and only if not every connection in the map lives on
  // the base loop and is kConnected.
  lemma DestructionSafeExactly(n: nat, es: seq<Event>)
    requires CalmRun(Init(n), es)
    ensures Allowed(After(Init(n), es), Destruct)
    ensures CanFail(Step(After(Init(n), es), Destruct)) <==> !Steady(After(Init(n), es))
  {
    CalmState(n, es);
    var s := After(Init(n), es);
    var s' := Step(s, Destruct);
    StepKeepsQuiet(s, Destruct);
    if Steady(s) {
      forall c | c in s'.conns ensures SettledConn(s', c) {
        assert LifeOk(LifeOf(s, c));
      }
      forall more | AllUnattended(more) ensures !Breaks(s', more) {
        SettledIsSafe(s', more);
      }
    } else {
      var c :| c in s.connections && !(s.conns[c].loop == 0 && s.conns[c].conn.state == Connected);
      UnsettledFails(s', c);
    }
  }

  // The smallest failing run: accept, shut down, destroy the server.
  lemma DisconnectingReachable()
    ensures var es := [Accept(None), Shutdown(1, None)];
            && CalmRun(Init(0), es) && !Steady(After(Init(0), es))
            && FailsIn(After(Init(0), es), [Destruct, Drop(1)])
  {
    var e1, e2: Event := Accept(None), Shutdown(1, None);
    var s1 := FirstAccepted();
    ShutsDown(s1);
    RunOf2(Init(0), e1, e2);
    DisconnectingFails(Step(s1, e2), 1);
  }

  lemma ShutsDown(s: Sys)
    requires s.alive && Known(s, 1) && 1 in s.connections && s.conns[1].loop == 0
    requires s.conns[1].conn.state == Connected
    ensures Legal(s, Shutdown(1, None))
    ensures var s' := Step(s, Shutdown(1, None));
            && s'.alive && Known(s', 1) && 1 in s'.connections && s'.conns[1].loop == 0
            && s'.conns[1].conn.state == Disconnecting
  {
  }

  lemma DisconnectingFails(s: Sys, c: nat)
    requires s.alive && c in s.connections && Known(s, c) && s.conns[c].loop == 0
    requires s.conns[c].conn.state == Disconnecting
    ensures FailsIn(s, [Destruct, Drop(c)])
  {
    FailsNow(Step(s, Destruct), Drop(c));
    FailsLater(s, Destruct, [Drop(c)]);
    assert [Destruct] + [Drop(c)] == [Destruct, Drop(c)];
  }
}
