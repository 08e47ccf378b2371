/** The life cycle of connections over every interleaving of the loops, the users, the
    kernel and ~TcpServer: the account of each connection holds up to the first failed
    assertion, and calm runs never fail one. */
module Lifecycle {
  import opened Bytes
  import opened ChannelIndex
  import opened Connection
  import opened Server
  import opened LifeSteps

  // A step creates only the connection it accepts.
  lemma StepKeys(s: Sys, e: Event)
    requires WellFormed(s) && Allowed(s, e)
    ensures Step(s, e).conns.Keys == s.conns.Keys + if e.Accept? then {s.nextConnId} else {}
  {
  }

  // What only Accept and Destruct change.
  predicate SameFrame(s: Sys, s': Sys) {
    && s'.n == s.n && s'.next == s.next && s'.nextConnId == s.nextConnId && s'.alive == s.alive
    && |s'.queues| == |s.queues| && s'.conns.Keys == s.conns.Keys
    && forall c :: c in s.conns ==> s'.conns[c].loop == s.conns[c].loop
  }

  lemma CloseSame(s: Sys, c: nat)
    requires Known(s, c)
    ensures SameFrame(s, CloseConn(s, c))
  {
  }

  lemma PutSame(s: Sys, c: nat, r: Rec)
    requires c in s.conns && r.loop == s.conns[c].loop
    ensures SameFrame(s, Put(s, c, r))
  {
  }

  lemma TaskSame(s: Sys, t: Task, w: WriteResult)
    requires Known(s, t.c) && (t.SendT? ==> Possible(w, |t.data|))
    ensures SameFrame(s, Execute(s, t, w))
  {
    var r := s.conns[t.c];
    match t
    case EstablishT(c) => PutSame(s, c, EstablishedRec(r));
    case RemoveT(c) => PutSame(s, c, ErasedRec(r));
    case DestroyT(c) => PutSame(s, c, DestroyedRec(r));
    case ForceCloseT(c) => CloseSame(s, c);
    case ShutdownT(c) => PutSame(s, c, WithConn(r, ShutdownInLoop(r.conn)));
    case SendT(c, data, _) => PutSame(s, c, WithConn(r, SendInLoop(r.conn, data, w)));
    case StartReadT(c) => PutSame(s, c, WithConn(r, Connection.StartRead(r.conn)));
    case StopReadT(c) => PutSame(s, c, WithConn(r, Connection.StopRead(r.conn)));
  }

  lemma OutSame(s: Sys, c: nat, rev: Revents, w: WriteResult)
    requires Known(s, c) && Possible(w, |s.conns[c].conn.out|)
    ensures SameFrame(s, HandleOut(s, c, rev, w))
  {
  }

  lemma ReportSame(s: Sys, c: nat, rev: Revents, rd: ReadResult, w: WriteResult)
    requires Known(s, c) && Possible(w, |s.conns[c].conn.out|)
    ensures SameFrame(s, HandleEvent(s, c, rev, rd, w))
  {
    CloseSame(s, c);
    var s1 := HandleHup(s, c, rev);
    CloseSame(s1, c);
    OutSame(HandleRead(s1, c, rev, rd), c, rev, w);
  }

  lemma CallSame(s: Sys, e: Event)
    requires Allowed(s, e) && (e.Send? || e.Shutdown? || e.ForceClose?)
    ensures SameFrame(s, Step(s, e))
  {
  }

  lemma StepSame(s: Sys, e: Event)
    requires Allowed(s, e) && !e.Accept? && !e.Destruct?
    ensures SameFrame(s, Step(s, e))
  {
    match e
    case RunTask(l, w) => TaskSame(Pop(s, l), s.queues[l][0], w);
    case Report(c, rev, rd, w) => ReportSame(s, c, rev, rd, w);
    case StartRead(c, _) => TaskSame(s, StartReadT(c), WouldBlock);
    case StopRead(c, _) => TaskSame(s, StopReadT(c), WouldBlock);
    case PushBy(_) =>
    case Drop(_) =>
    case _ => CallSame(s, e);
  }

  lemma StepGoodAll(s: Sys, e: Event, c: nat)
    requires Inv(s) && Legal(s, e) && c in Step(s, e).conns
    ensures Good(Step(s, e), c)
    ensures LeavesReading(s, e) && (c in s.conns ==> QuietLife(LifeOf(s, c))) ==> QuietLife(LifeOf(Step(s, e), c))
  {
    StepKeys(s, e);
    if c in s.conns {
      StepGood(s, e, c);
    } else {
      AcceptNew(s, e.mark);
    }
  }

  lemma StepWellFormed(s: Sys, e: Event)
    requires Inv(s) && Legal(s, e)
    ensures WellFormed(Step(s, e))
  {
    if e.Destruct? {
      DieWellFormed(s);
    } else if e.Accept? {
      AcceptNew(s, e.mark);
    } else {
      ActsOnGood(s, e);
      StepGood(s, e, ActsOn(s, e));
    }
  }

  lemma StepKeepsInv(s: Sys, e: Event)
    requires Inv(s) && Legal(s, e)
    ensures Inv(Step(s, e))
  {
    StepWellFormed(s, e);
    forall c | c in Step(s, e).conns ensures Good(Step(s, e), c) {
      StepGoodAll(s, e, c);
    }
  }

  lemma InitInv(n: nat)
    ensures Inv(Init(n)) && Quiet(Init(n))
  {
  }

  lemma {:induction false} RunKeepsInv(s: Sys, es: seq<Event>)
    requires Inv(s) && LegalRun(s, es)
    ensures Inv(After(s, es))
    decreases |es|
  {
    if es != [] {
      StepKeepsInv(s, es[0]);
      RunKeepsInv(Step(s, es[0]), es[1..]);
    }
  }

  // --- Quiet runs: nobody uses startRead or stopRead --------------------------------------

  ghost predicate NoSwitch(s: Sys) {
    forall l, i :: 0 <= l < |s.queues| && 0 <= i < |s.queues[l]| ==> !SwitchTask(s.queues[l][i])
  }

  // q' is q followed by tasks that neither establish a connection nor switch reading.
  ghost predicate Extends(q: seq<Task>, q': seq<Task>) {
    q <= q' && forall i :: |q| <= i < |q'| ==> !q'[i].EstablishT? && !SwitchTask(q'[i])
  }

  // ... and that carry no message.
  ghost predicate Adds(q: seq<Task>, q': seq<Task>) {
    Extends(q, q') && forall i :: |q| <= i < |q'| ==> !q'[i].SendT?
  }

  lemma AddsOn(a: seq<Task>, b: seq<Task>, c: seq<Task>)
    requires Adds(a, b) && Adds(b, c)
    ensures Adds(a, c)
  {
  }

  lemma CloseExtends(s: Sys, c: nat, l: nat)
    requires Known(s, c) && l < |s.queues|
    ensures |CloseConn(s, c).queues| == |s.queues| && Adds(s.queues[l], CloseConn(s, c).queues[l])
  {
  }

  lemma TaskExtends(s: Sys, t: Task, w: WriteResult, l: nat)
    requires Known(s, t.c) && l < |s.queues| && (t.SendT? ==> Possible(w, |t.data|))
    ensures |Execute(s, t, w).queues| == |s.queues| && Adds(s.queues[l], Execute(s, t, w).queues[l])
  {
    CloseExtends(s, t.c, l);
  }

  lemma ReportExtends(s: Sys, c: nat, rev: Revents, rd: ReadResult, w: WriteResult, l: nat)
    requires Known(s, c) && l < |s.queues| && Possible(w, |s.conns[c].conn.out|)
    ensures var s' := HandleEvent(s, c, rev, rd, w);
            |s'.queues| == |s.queues| && Adds(s.queues[l], s'.queues[l])
  {
    var s1 := HandleHup(s, c, rev);
    var s2 := HandleRead(s1, c, rev, rd);
    CloseExtends(s, c, l);
    assert Adds(s.queues[l], s1.queues[l]);
    CloseExtends(s1, c, l);
    assert Adds(s1.queues[l], s2.queues[l]);
    AddsOn(s.queues[l], s1.queues[l], s2.queues[l]);
  }

  lemma CallExtends(s: Sys, e: Event, l: nat)
    requires Allowed(s, e) && l < |s.queues| && (e.Send? || e.Shutdown? || e.ForceClose?)
    ensures |Step(s, e).queues| == |s.queues| && Adds(s.queues[l], Step(s, e).queues[l])
  {
  }

  // What is left of queue l when e took its task.
  function Rest(s: Sys, e: Event, l: nat): seq<Task>
    requires Allowed(s, e) && l < |s.queues|
  {
    if e.RunTask? && e.loop == l then s.queues[l][1..] else s.queues[l]
  }

  // Queues are FIFO: a step takes at most the head and otherwise only appends.
  lemma StepExtends(s: Sys, e: Event, l: nat)
    requires WellFormed(s) && Allowed(s, e) && !e.Accept? && !SwitchesRead(e) && l < |s.queues|
    ensures |Step(s, e).queues| == |s.queues| && Extends(Rest(s, e, l), Step(s, e).queues[l])
  {
    match e
    case RunTask(k, w) => TaskExtends(Pop(s, k), s.queues[k][0], w, l);
    case Report(c, rev, rd, w) => ReportExtends(s, c, rev, rd, w, l);
    case PushBy(t) => assert Flying(s, s.inflight[t]);
    case Destruct =>
    case Drop(_) =>
    case _ => CallExtends(s, e, l);
  }

  lemma AcceptQueues(s: Sys, mark: Option<nat>, l: nat)
    requires Allowed(s, Accept(mark)) && l < |s.queues|
    ensures var s' := Step(s, Accept(mark));
            && |s'.queues| == |s.queues|
            && (s'.queues[l] == s.queues[l] || s'.queues[l] == s.queues[l] + [EstablishT(s.nextConnId)])
  {
  }

  lemma StepNoSwitch(s: Sys, e: Event)
    requires WellFormed(s) && NoSwitch(s) && Allowed(s, e) && !SwitchesRead(e)
    ensures NoSwitch(Step(s, e))
  {
    var s' := Step(s, e);
    if e.Accept? { AcceptQueues(s, e.mark, 0); } else { StepExtends(s, e, 0); }
    forall l, i | 0 <= l < |s'.queues| && 0 <= i < |s'.queues[l]| ensures !SwitchTask(s'.queues[l][i]) {
      if e.Accept? {
        AcceptQueues(s, e.mark, l);
      } else {
        StepExtends(s, e, l);
        assert i < |Rest(s, e, l)| ==> s'.queues[l][i] == Rest(s, e, l)[i];
      }
    }
  }

  lemma StepKeepsQuiet(s: Sys, e: Event)
    requires Quiet(s) && Legal(s, e) && !SwitchesRead(e)
    ensures Quiet(Step(s, e))
  {
    StepKeepsInv(s, e);
    StepNoSwitch(s, e);
    forall c | c in Step(s, e).conns ensures QuietLife(LifeOf(Step(s, e), c)) {
      StepGoodAll(s, e, c);
    }
  }

  predicate NoneSwitches(es: seq<Event>) { forall i :: 0 <= i < |es| ==> !SwitchesRead(es[i]) }

  predicate QuietRun(s: Sys, es: seq<Event>) { LegalRun(s, es) && NoneSwitches(es) }

  lemma FirstQuiet(s: Sys, es: seq<Event>) returns (s': Sys)
    requires Quiet(s) && LegalRun(s, es) && es != [] && !SwitchesRead(es[0])
    ensures Quiet(s') && LegalRun(s', es[1..]) && After(s, es) == After(s', es[1..])
  {
    StepKeepsQuiet(s, es[0]);
    s' := Step(s, es[0]);
  }

  lemma {:induction false} RunKeepsQuiet(s: Sys, es: seq<Event>)
    requires Quiet(s) && LegalRun(s, es) && NoneSwitches(es)
    ensures Quiet(After(s, es))
    decreases |es|
  {
    if es != [] {
      var s' := FirstQuiet(s, es);
      RunKeepsQuiet(s', es[1..]);
    }
  }

  lemma StepAlive(s: Sys, e: Event)
    requires Allowed(s, e)
    ensures Step(s, e).alive == (s.alive && !e.Destruct?)
  {
    if !e.Accept? && !e.Destruct? {
      StepSame(s, e);
    }
  }

  predicate AllCalm(es: seq<Event>) { forall i :: 0 <= i < |es| ==> Calm(es[i]) }

  predicate CalmRun(s: Sys, es: seq<Event>) { LegalRun(s, es) && AllCalm(es) }

  lemma {:induction false} CalmKeepsAlive(s: Sys, es: seq<Event>)
    requires s.alive && LegalRun(s, es) && AllCalm(es)
    ensures After(s, es).alive
    decreases |es|
  {
    if es != [] {
      StepAlive(s, es[0]);
      CalmKeepsAlive(Step(s, es[0]), es[1..]);
    }
  }

  // --- Calm runs fail no assertion ----------------------------------------------------------

  lemma ReportableLife(v: Life)
    requires LifeOk(v) && QuietLife(v) && Reportable(v.r.conn)
    ensures Living(v.r) && Open(v.r.conn)
  {
  }

  lemma WatchedLives(s: Sys, c: nat)
    requires Quiet(s) && c in s.conns && Reportable(s.conns[c].conn)
    ensures Living(s.conns[c]) && Open(s.conns[c].conn)
  {
    var v := LifeOf(s, c);
    assert LifeOk(v) && QuietLife(v);
    ReportableLife(v);
  }

  lemma OpenCanClose(s: Sys, c: nat)
    requires Good(s, c) && s.alive && Open(s.conns[c].conn)
    ensures CloseAsserts(s, c)
  {
    CloseLife(LifeOf(s, c));
  }

  lemma CalmReport(s: Sys, c: nat, rev: Revents, rd: ReadResult, w: WriteResult)
    requires Quiet(s) && s.alive && Allowed(s, Report(c, rev, rd, w)) && !ClosesTwice(rev, rd)
    ensures HandleEventAsserts(s, c, rev, rd)
  {
    WatchedLives(s, c);
    assert Good(s, c);
    OpenCanClose(s, c);
  }

  lemma CalmTask(s: Sys, l: nat, w: WriteResult)
    requires Quiet(s) && s.alive && Allowed(s, RunTask(l, w))
    ensures Asserts(s, RunTask(l, w))
  {
    var t := s.queues[l][0];
    var d := t.c;
    assert Placed(s, l, t) && Good(s, d) && QuietLife(LifeOf(s, d));
    HeadCounted(s, l, t);
    match t
    case EstablishT(_) => EstablishLife(LifeOf(s, d), d);
    case RemoveT(_) => EraseLife(LifeOf(s, d), d);
    case DestroyT(_) => DestroyLife(LifeOf(s, d), d);
    case ForceCloseT(_) => if Open(s.conns[d].conn) { OpenCanClose(s, d); }
    case _ =>
  }

  lemma CalmAsserts(s: Sys, e: Event)
    requires Quiet(s) && s.alive && Allowed(s, e) && Calm(e)
    ensures Asserts(s, e)
  {
    match e
    case RunTask(l, w) => CalmTask(s, l, w);
    case Report(c, rev, rd, w) => CalmReport(s, c, rev, rd, w);
    case Send(c, _, _, _) => assert LifeOk(LifeOf(s, c));
    case _ =>
  }

  lemma FirstCalm(s: Sys, es: seq<Event>) returns (s': Sys)
    requires Quiet(s) && s.alive && es != [] && Calm(es[0]) && FailsIn(s, es)
    ensures Quiet(s') && s'.alive && FailsIn(s', es[1..])
  {
    CalmAsserts(s, es[0]);
    StepKeepsQuiet(s, es[0]);
    StepAlive(s, es[0]);
    s' := Step(s, es[0]);
  }

  lemma {:induction false} CalmNeverFails(s: Sys, es: seq<Event>)
    requires Quiet(s) && s.alive && AllCalm(es)
    ensures !FailsIn(s, es)
    decreases |es|
  {
    if FailsIn(s, es) {
      var s' := FirstCalm(s, es);
      CalmNeverFails(s', es[1..]);
    }
  }

  // Whatever the environment does short of startRead, stopRead, ~TcpServer and a report that
  // closes twice, no assertion of the source ever fails.
  lemma NoAssertionFails(n: nat, es: seq<Event>)
    requires AllCalm(es)
    ensures !FailsIn(Init(n), es)
  {
    InitInv(n);
    CalmNeverFails(Init(n), es);
  }

  lemma CalmState(n: nat, es: seq<Event>)
    requires CalmRun(Init(n), es)
    ensures Quiet(After(Init(n), es)) && After(Init(n), es).alive
  {
    assert NoneSwitches(es);
    InitInv(n);
    RunKeepsQuiet(Init(n), es);
    CalmKeepsAlive(Init(n), es);
  }

  // --- What a connection has been through, in every reachable state -------------------------

  predicate Orderly(r: Rec, alive: bool, inMap: bool) {
    && r.erased <= r.closed <= r.established <= 1
    && r.destroyed <= r.erased + r.dropped <= 1
    && (alive ==> r.dropped == 0)
    && (inMap <==> r.erased + r.dropped == 0)
    && (r.established == 0 <==> r.conn.state == Connecting)
    && (r.closed + r.destroyed > 0 <==> r.conn.state == Disconnected)
    && (Open(r.conn) ==> (r.conn.index == Added <==> r.conn.reading || r.conn.writing))
  }

  lemma LifeIsOrderly(v: Life)
    requires LifeOk(v)
    ensures Orderly(v.r, v.alive, v.inMap)
  {
  }

  // Up to the first failed assertion of any run at all: each connection is established at
  // most once, closed at most once and only after that, erased from the map at most once and
  // only after that, destroyed at most once and only after the erase or by ~TcpServer, in the
  // map exactly until then, and while open it is watched exactly as its mask asks.
  lemma ConnectionLifecycle(n: nat, es: seq<Event>, c: nat)
    requires LegalRun(Init(n), es) && c in After(Init(n), es).conns
    ensures var s := After(Init(n), es); Orderly(s.conns[c], s.alive, c in s.connections)
  {
    InitInv(n);
    RunKeepsInv(Init(n), es);
    var s := After(Init(n), es);
    LifeIsOrderly(LifeOf(s, c));
  }

  // In calm runs the kernel watches a connection exactly between establishment and close, and
  // it is destroyed only after its erase.
  lemma CalmLifecycle(n: nat, es: seq<Event>, c: nat)
    requires CalmRun(Init(n), es) && c in After(Init(n), es).conns
    ensures var r := After(Init(n), es).conns[c];
            && r.destroyed <= r.erased <= r.closed <= r.established <= 1
            && (r.conn.index == Added <==> r.established == 1 && r.closed == 0)
            && (r.closed == 1 ==> Idle(r.conn))
            && (r.destroyed == 1 <==> r.closed == 1 && r.conn.index == New)
  {
    CalmState(n, es);
    QuietIsOrderly(After(Init(n), es), c);
  }

  lemma QuietIsOrderly(s: Sys, c: nat)
    requires Quiet(s) && s.alive && c in s.conns
    ensures var r := s.conns[c];
            && r.destroyed <= r.erased <= r.closed <= r.established <= 1
            && (r.conn.index == Added <==> r.established == 1 && r.closed == 0)
            && (r.closed == 1 ==> Idle(r.conn))
            && (r.destroyed == 1 <==> r.closed == 1 && r.conn.index == New)
  {
    assert LifeOk(LifeOf(s, c)) && QuietLife(LifeOf(s, c));
  }

  // A destroy task, when it runs, finds the channel disconnected, unwatched and maskless,
  // and the connection already erased.
  lemma DestroyedOnlyAfterErase(n: nat, es: seq<Event>, l: nat, c: nat)
    requires CalmRun(Init(n), es)
    requires var s := After(Init(n), es); l < |s.queues| && s.queues[l] != [] && s.queues[l][0] == DestroyT(c)
    ensures var s := After(Init(n), es);
            && c in s.conns && c !in s.connections && s.conns[c].erased == 1 && s.conns[c].destroyed == 0
            && s.conns[c].conn.state == Disconnected && Idle(s.conns[c].conn)
  {
    CalmState(n, es);
    var s := After(Init(n), es);
    assert Placed(s, l, s.queues[l][0]);
    HeadCounted(s, l, DestroyT(c));
    assert LifeOk(LifeOf(s, c)) && QuietLife(LifeOf(s, c));
  }

  // The dispatch order of Channel::handleEvent is safe exactly when the report is not a
  // HUP without IN together with PRI or RDHUP whose read meets end of file.
  lemma DispatchSafeExactly(n: nat, es: seq<Event>, c: nat, rev: Revents, rd: ReadResult, w: WriteResult)
    requires CalmRun(Init(n), es) && Allowed(After(Init(n), es), Report(c, rev, rd, w))
    ensures HandleEventAsserts(After(Init(n), es), c, rev, rd) <==> !ClosesTwice(rev, rd)
  {
    CalmState(n, es);
    if !ClosesTwice(rev, rd) {
      CalmReport(After(Init(n), es), c, rev, rd, w);
    }
  }

  lemma RunOf1(s: Sys, e: Event)
    requires Legal(s, e)
    ensures LegalRun(s, [e]) && After(s, [e]) == Step(s, e)
  {
    assert [e][1..] == [];
    assert After(Step(s, e), []) == Step(s, e);
  }

  lemma RunCons(s: Sys, e: Event, rest: seq<Event>)
    requires Legal(s, e) && LegalRun(Step(s, e), rest)
    ensures LegalRun(s, [e] + rest) && After(s, [e] + rest) == After(Step(s, e), rest)
  {
    assert ([e] + rest)[1..] == rest;
  }

  lemma RunOf2(s: Sys, e1: Event, e2: Event)
    requires Legal(s, e1) && Legal(Step(s, e1), e2)
    ensures LegalRun(s, [e1, e2]) && After(s, [e1, e2]) == Step(Step(s, e1), e2)
  {
    RunOf1(Step(s, e1), e2);
    assert [e1, e2][1..] == [e2];
  }

  // The first connection of a server without a pool.
  lemma FirstAccepted() returns (s: Sys)
    ensures Legal(Init(0), Accept(None)) && s == Step(Init(0), Accept(None))
    ensures s.alive && s.queues == [[]] && s.inflight == map[] && s.connections == {1} && Known(s, 1)
    ensures s.conns[1].loop == 0 && s.conns[1].conn == Establish(Fresh(None)) && s.conns[1].established == 1
  {
    s := Step(Init(0), Accept(None));
    assert Init(0).queues == [[]];
  }

  // ... and such a report can come: on the first connection of any server without a pool.
  lemma DoubleCloseReachable() returns (e: Event)
    ensures CalmRun(Init(0), [Accept(None)]) && e.Report? && ClosesTwice(e.rev, e.rd)
    ensures var s := After(Init(0), [Accept(None)]); Allowed(s, e) && !Asserts(s, e)
  {
    e := Report(1, Revents(true, false, true, false, false, false), Eof, WouldBlock);
    var s := FirstAccepted();
    RunOf1(Init(0), Accept(None));
  }

  // --- Round robin ----------------------------------------------------------------------

  function LoopOf(n: nat, c: nat): nat
    requires 1 <= c
  {
    if n == 0 then 0 else 1 + (c - 1) % n
  }

  predicate CursorOk(s: Sys) {
    1 <= s.nextConnId && s.next == if s.n == 0 then 0 else (s.nextConnId - 1) % s.n
  }

  ghost predicate RoundRobin(s: Sys) {
    CursorOk(s) && (forall c :: c in s.conns ==> 1 <= c && s.conns[c].loop == LoopOf(s.n, c))
  }

  lemma StepShape(s: Sys, e: Event, c: nat)
    requires Allowed(s, e) && c in s.conns && c != s.nextConnId
    ensures c in Step(s, e).conns && Step(s, e).conns[c].loop == s.conns[c].loop
  {
    if !e.Accept? && !e.Destruct? {
      StepSame(s, e);
    }
  }

  lemma Multiple(d: int, n: int)
    requires 0 < n
    ensures d >= 1 ==> d * n >= n
    ensures d <= -1 ==> d * n <= -n
  {
  }

  lemma NextModulo(k: nat, n: nat)
    requires 0 < n
    ensures (k + 1) % n == if k % n + 1 >= n then 0 else k % n + 1
  {
    var r := if k % n + 1 >= n then 0 else k % n + 1;
    var q := if k % n + 1 >= n then k / n + 1 else k / n;
    assert k + 1 == q * n + r;
    var q', r' := (k + 1) / n, (k + 1) % n;
    assert (q - q') * n == r' - r;
    Multiple(q - q', n);
  }

  lemma StepCursor(s: Sys, e: Event)
    requires Allowed(s, e) && CursorOk(s)
    ensures CursorOk(Step(s, e)) && Step(s, e).n == s.n
  {
    if e.Accept? {
      if s.n > 0 {
        NextModulo(s.nextConnId - 1, s.n);
      }
    } else if !e.Destruct? {
      StepSame(s, e);
    }
  }

  lemma AcceptPlaces(s: Sys, mark: Option<nat>)
    requires Allowed(s, Accept(mark)) && CursorOk(s)
    ensures var s', c := Step(s, Accept(mark)), s.nextConnId;
            c in s'.conns && s'.conns[c].loop == LoopOf(s.n, c)
  {
  }

  lemma StepKeepsRoundRobin(s: Sys, e: Event)
    requires WellFormed(s) && RoundRobin(s) && Allowed(s, e)
    ensures RoundRobin(Step(s, e)) && Step(s, e).n == s.n
  {
    var s' := Step(s, e);
    StepCursor(s, e);
    StepKeys(s, e);
    forall c | c in s'.conns ensures 1 <= c && s'.conns[c].loop == LoopOf(s.n, c) {
      if c in s.conns {
        StepShape(s, e, c);
      } else {
        AcceptPlaces(s, e.mark);
      }
    }
  }

  lemma {:induction false} RunKeepsRoundRobin(s: Sys, es: seq<Event>)
    requires Inv(s) && RoundRobin(s) && LegalRun(s, es)
    ensures RoundRobin(After(s, es)) && After(s, es).n == s.n
    decreases |es|
  {
    if es != [] {
      StepKeepsRoundRobin(s, es[0]);
      StepKeepsInv(s, es[0]);
      RunKeepsRoundRobin(Step(s, es[0]), es[1..]);
    }
  }

  // The k-th accepted connection is served by loop ((k - 1) mod n) + 1 of the pool, or by
  // the acceptor loop when the pool is empty.
  lemma ConnectionsGoRoundRobin(n: nat, es: seq<Event>, c: nat)
    requires LegalRun(Init(n), es) && c in After(Init(n), es).conns
    ensures 1 <= c < After(Init(n), es).nextConnId
    ensures After(Init(n), es).conns[c].loop == LoopOf(n, c)
  {
    InitInv(n);
    RunKeepsRoundRobin(Init(n), es);
    RunKeepsInv(Init(n), es);
  }
}
