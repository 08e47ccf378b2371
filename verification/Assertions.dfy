/** Exactly which steps fail an assertion, in every state a run can reach, with startRead,
    stopRead and ~TcpServer used anywhere in it. */
module Assertions {
  import opened Bytes
  import opened ChannelIndex
  import opened Connection
  import opened Server
  import opened LifeSteps
  import opened Lifecycle

  predicate Closes(rev: Revents, rd: ReadResult) {
    (rev.hup && !rev.in_) || ((rev.in_ || rev.pri || rev.rdhup) && rd == Eof)
  }

  predicate HarmlessTask(s: Sys, t: Task)
    requires Known(s, t.c)
  {
    var k := s.conns[t.c].conn;
    match t
    case RemoveT(_) => s.alive
    case ForceCloseT(_) => Open(k) ==> s.alive
    case DestroyT(_) => k.state == Connected || (k.state == Disconnected && !k.reading)
    case _ => true
  }

  // A report that closes finds its connection open, and the server alive, and does not close
  // it twice; a destroy task does not find kDisconnecting, nor a closed connection reading.
  predicate Harmless(s: Sys, e: Event)
    requires Allowed(s, e)
  {
    match e
    case Report(c, rev, rd, _) =>
      !ClosesTwice(rev, rd) && (Closes(rev, rd) ==> Open(s.conns[c].conn) && s.alive)
    case RunTask(l, _) => HarmlessTask(s, s.queues[l][0])
    case Drop(c) => s.conns[c].loop == 0 ==> s.conns[c].conn.state == Connected
    case _ => true
  }

  lemma CloseChannel(s: Sys, c: nat)
    requires Known(s, c)
    ensures ChannelOk(CloseConn(s, c).conns[c].conn) && !Open(CloseConn(s, c).conns[c].conn)
  {
  }

  lemma ReportExactly(s: Sys, c: nat, rev: Revents, rd: ReadResult)
    requires Good(s, c)
    ensures HandleEventAsserts(s, c, rev, rd) <==>
              !ClosesTwice(rev, rd) && (Closes(rev, rd) ==> Open(s.conns[c].conn) && s.alive)
  {
    if Open(s.conns[c].conn) && s.alive {
      OpenCanClose(s, c);
    }
    CloseChannel(s, c);
    if HupCloses(rev) {
      CloseChannel(CloseConn(s, c), c);
    }
  }

  // What the head task t finds in the life of its connection.
  lemma TaskLife(v: Life, t: Task)
    requires LifeOk(v)
    requires (t.EstablishT? ==> v.establish > 0) && (t.RemoveT? ==> v.remove > 0) && (t.DestroyT? ==> v.destroy > 0)
    ensures t.EstablishT? ==> v.r.conn.state == Connecting
    ensures t.RemoveT? && v.alive ==> v.inMap
    ensures t.DestroyT? ==> (CanDestroy(v.r.conn) <==>
              v.r.conn.state == Connected || (v.r.conn.state == Disconnected && !v.r.conn.reading))
  {
  }

  lemma TaskExactly(s: Sys, l: nat)
    requires Inv(s) && l < |s.queues| && s.queues[l] != []
    ensures Known(s, s.queues[l][0].c)
    ensures ExecuteAsserts(Pop(s, l), s.queues[l][0]) <==> HarmlessTask(s, s.queues[l][0])
  {
    var t := s.queues[l][0];
    assert Placed(s, l, t) && Good(s, t.c);
    HeadCounted(s, l, t);
    TaskLife(LifeOf(s, t.c), t);
    if t.ForceCloseT? && Open(s.conns[t.c].conn) && s.alive {
      OpenCanClose(s, t.c);
    }
  }

  ghost predicate Exactly(s: Sys, e: Event) { Allowed(s, e) && (Asserts(s, e) <==> Harmless(s, e)) }

  lemma UserExactly(s: Sys, e: Event)
    requires Inv(s) && Allowed(s, e) && (e.Send? || SwitchesRead(e) || e.Drop?)
    ensures Exactly(s, e)
  {
    assert LifeOk(LifeOf(s, e.c));
  }

  lemma SystemExactly(s: Sys, e: Event)
    requires Inv(s) && Allowed(s, e) && (e.RunTask? || e.Report?)
    ensures Exactly(s, e)
  {
    if e.RunTask? {
      TaskExactly(s, e.loop);
    } else {
      assert Good(s, e.c);
      ReportExactly(s, e.c, e.rev, e.rd);
    }
  }

  lemma QuietlyExactly(s: Sys, e: Event)
    requires Allowed(s, e) && (e.Accept? || e.Shutdown? || e.ForceClose? || e.PushBy? || e.Destruct?)
    ensures Exactly(s, e)
  {
  }

  lemma StepExactly(s: Sys, e: Event)
    requires Inv(s) && Allowed(s, e)
    ensures Exactly(s, e)
  {
    if e.RunTask? || e.Report? {
      SystemExactly(s, e);
    } else if e.Send? || SwitchesRead(e) || e.Drop? {
      UserExactly(s, e);
    } else {
      QuietlyExactly(s, e);
    }
  }

  // In every state a run can reach, whatever it used, a step fails an assertion if and only
  // if it is one of these.
  lemma AssertionFailsExactly(n: nat, es: seq<Event>, e: Event)
    requires LegalRun(Init(n), es) && Allowed(After(Init(n), es), e)
    ensures Asserts(After(Init(n), es), e) <==> Harmless(After(Init(n), es), e)
  {
    InitInv(n);
    RunKeepsInv(Init(n), es);
    StepExactly(After(Init(n), es), e);
  }

  // While the server lives, the destroy half is about reading alone: a destroy task always
  // finds its connection closed.
  lemma AliveDestroyExactly(n: nat, es: seq<Event>, l: nat, w: WriteResult, c: nat)
    requires LegalRun(Init(n), es) && After(Init(n), es).alive && Allowed(After(Init(n), es), RunTask(l, w))
    requires After(Init(n), es).queues[l][0] == DestroyT(c)
    ensures var s := After(Init(n), es);
            && s.conns[c].conn.state == Disconnected
            && (Asserts(s, RunTask(l, w)) <==> !s.conns[c].conn.reading)
  {
    InitInv(n);
    RunKeepsInv(Init(n), es);
    var s := After(Init(n), es);
    AssertionFailsExactly(n, es, RunTask(l, w));
    assert Placed(s, l, s.queues[l][0]);
    HeadCounted(s, l, DestroyT(c));
    DueIsClosed(LifeOf(s, c));
  }

  lemma DueIsClosed(v: Life)
    requires LifeOk(v) && v.alive && v.destroy > 0
    ensures v.r.conn.state == Disconnected
  {
  }

  // --- Which steps put a closed connection back on the poller ------------------------------

  predicate Runs(s: Sys, e: Event, t: Task) {
    e.RunTask? && e.loop < |s.queues| && s.queues[e.loop] != [] && s.queues[e.loop][0] == t
  }

  // startReadInLoop or stopReadInLoop on c, past its own test.
  predicate Switches(s: Sys, e: Event, c: nat)
    requires c in s.conns
  {
    var k := s.conns[c].conn;
    || ((e == Event.StartRead(c, true) || Runs(s, e, StartReadT(c))) && (!k.wantsRead || !k.reading))
    || ((e == Event.StopRead(c, true) || Runs(s, e, StopReadT(c))) && (k.wantsRead || k.reading))
  }

  // Closed (or destroyed) and not on the poller.
  predicate Off(k: Conn) { k.state == Disconnected && !k.writing && k.index != Added }

  predicate StaysOff(s: Sys, c: nat) { c in s.conns && s.conns[c].conn.index != Added }

  // The step puts c back on the poller exactly if it switches reading on c.
  predicate ReaddsExactly(s: Sys, e: Event, c: nat)
    requires Allowed(s, e)
  {
    && c in s.conns && c in Step(s, e).conns
    && (Step(s, e).conns[c].conn.index == Added <==> Switches(s, e, c))
  }

  lemma CloseStaysOff(s: Sys, d: nat, c: nat)
    requires Known(s, d) && c in s.conns && Off(s.conns[c].conn) && CloseAsserts(s, d)
    ensures d != c && CloseConn(s, d).conns[c] == s.conns[c]
  {
  }

  lemma PutStaysOff(s: Sys, d: nat, k: Conn, c: nat)
    requires d in s.conns && c in s.conns && Off(s.conns[c].conn) && OutputStep(s.conns[d].conn, k)
    ensures StaysOff(PutConn(s, d, k), c)
  {
  }

  lemma TaskStaysOff(s: Sys, t: Task, w: WriteResult, c: nat)
    requires Known(s, t.c) && (t.SendT? ==> Possible(w, |t.data|)) && ExecuteAsserts(s, t)
    requires c in s.conns && Off(s.conns[c].conn) && (SwitchTask(t) ==> t.c != c)
    ensures StaysOff(Execute(s, t, w), c)
  {
    var k := s.conns[t.c].conn;
    match t
    case ForceCloseT(d) => if Open(k) { CloseStaysOff(s, d, c); }
    case ShutdownT(d) => PutStaysOff(s, d, ShutdownInLoop(k), c);
    case SendT(d, data, _) => SendIsOutputStep(k, data, w); PutStaysOff(s, d, SendInLoop(k, data, w), c);
    case _ =>
  }

  lemma SwitchTaskExactly(s: Sys, t: Task, c: nat)
    requires Known(s, t.c) && SwitchTask(t) && c in s.conns && Off(s.conns[c].conn)
    ensures var s', k := Execute(s, t, WouldBlock), s.conns[c].conn;
            && c in s'.conns
            && (s'.conns[c].conn.index == Added <==>
                  t.c == c && if t.StartReadT? then !k.wantsRead || !k.reading else k.wantsRead || k.reading)
  {
  }

  lemma ReportStaysOff(s: Sys, e: Event, c: nat)
    requires e.Report? && Legal(s, e) && c in s.conns && Off(s.conns[c].conn)
    ensures ReaddsExactly(s, e, c)
  {
    var d, rev, rd, w := e.c, e.rev, e.rd, e.w;
    var s1 := HandleHup(s, d, rev);
    if HupCloses(rev) {
      CloseStaysOff(s, d, c);
    }
    var s2 := HandleRead(s1, d, rev, rd);
    if ReadCloses(rev, rd) {
      CloseStaysOff(s1, d, c);
    }
    WriteIsOutputStep(s2.conns[d].conn, w);
    PutStaysOff(s2, d, HandleWrite(s2.conns[d].conn, w), c);
  }

  lemma CallStaysOff(s: Sys, e: Event, c: nat)
    requires Legal(s, e) && (e.Send? || e.Shutdown? || e.ForceClose?) && c in s.conns && Off(s.conns[c].conn)
    ensures ReaddsExactly(s, e, c)
  {
    if e.c != c {
      assert Step(s, e).conns[c] == s.conns[c];
    }
  }

  lemma RunStaysOff(s: Sys, e: Event, c: nat)
    requires e.RunTask? && Legal(s, e) && c in s.conns && Off(s.conns[c].conn)
    ensures ReaddsExactly(s, e, c)
  {
    var t, s1 := s.queues[e.loop][0], Pop(s, e.loop);
    if SwitchTask(t) {
      SwitchTaskExactly(s1, t, c);
      assert Step(s, e) == Execute(s1, t, WouldBlock);
    } else {
      TaskStaysOff(s1, t, e.w, c);
    }
  }

  lemma ReadStaysOff(s: Sys, e: Event, c: nat)
    requires SwitchesRead(e) && Legal(s, e) && c in s.conns && Off(s.conns[c].conn)
    ensures ReaddsExactly(s, e, c)
  {
    var t := if e.StartRead? then StartReadT(e.c) else StopReadT(e.c);
    assert Step(s, e) == UserRead(s, t, e.local);
    if e.local {
      SwitchTaskExactly(s, t, c);
    }
  }

  lemma OtherStaysOff(s: Sys, e: Event, c: nat)
    requires WellFormed(s) && Legal(s, e) && c in s.conns && Off(s.conns[c].conn)
    requires e.Accept? || e.PushBy? || e.Destruct? || e.Drop?
    ensures ReaddsExactly(s, e, c)
  {
  }

  lemma DisconnectedIsOff(v: Life)
    requires LifeOk(v) && v.r.conn.state == Disconnected && v.r.conn.index != Added
    ensures Off(v.r.conn)
  {
  }

  // In every reachable state a closed connection that is off the poller is put back by
  // exactly the steps that run startReadInLoop or stopReadInLoop on it past their test.
  lemma ReaddedExactly(n: nat, es: seq<Event>, e: Event, c: nat)
    requires LegalRun(Init(n), es) && Legal(After(Init(n), es), e) && c in After(Init(n), es).conns
    requires var k := After(Init(n), es).conns[c].conn; k.state == Disconnected && k.index != Added
    ensures ReaddsExactly(After(Init(n), es), e, c)
  {
    InitInv(n);
    RunKeepsInv(Init(n), es);
    StepReadds(After(Init(n), es), e, c);
  }

  lemma StepReadds(s: Sys, e: Event, c: nat)
    requires Inv(s) && Legal(s, e) && c in s.conns
    requires s.conns[c].conn.state == Disconnected && s.conns[c].conn.index != Added
    ensures ReaddsExactly(s, e, c)
  {
    assert LifeOk(LifeOf(s, c));
    DisconnectedIsOff(LifeOf(s, c));
    if e.RunTask? {
      RunStaysOff(s, e, c);
    } else if SwitchesRead(e) {
      ReadStaysOff(s, e, c);
    } else if e.Report? {
      ReportStaysOff(s, e, c);
    } else if e.Send? || e.Shutdown? || e.ForceClose? {
      CallStaysOff(s, e, c);
    } else {
      OtherStaysOff(s, e, c);
    }
  }

  // --- The two failing runs: reading switched by another thread, behind a forced close ---------

  // The base loop's only connection is open, reading and watched, with nothing queued.
  predicate Fresh1(s: Sys) {
    && s.alive && s.queues == [[]] && s.inflight == map[] && s.connections == {1} && Given(s, 1)
    && s.conns[1].loop == 0 && s.conns[1].conn == Establish(Fresh(None))
  }

  // t is the switch the other thread asks for.
  function Asked(t: Task): Event
    requires SwitchTask(t) && t.c == 1
  {
    if t.StartReadT? then Event.StartRead(1, false) else Event.StopRead(1, false)
  }

  lemma ForcedThenAsked(s: Sys, t: Task) returns (s': Sys)
    requires Fresh1(s) && SwitchTask(t) && t.c == 1
    ensures Legal(s, ForceClose(1, None)) && Legal(Step(s, ForceClose(1, None)), Asked(t))
    ensures s' == Step(Step(s, ForceClose(1, None)), Asked(t))
    ensures s'.alive && s'.queues == [[ForceCloseT(1), t]] && s'.connections == {1} && Known(s', 1)
    ensures s'.conns[1].loop == 0 && s'.conns[1].conn == Disconnect(Establish(Fresh(None)))
  {
    var s1 := Step(s, ForceClose(1, None));
    assert s.queues[0] + [ForceCloseT(1)] == [ForceCloseT(1)];
    assert s1.queues == [[ForceCloseT(1)]];
    assert s1.queues[0] + [t] == [ForceCloseT(1), t];
    s' := Step(s1, Asked(t));
    assert s' == Push(s1, 0, t);
  }

  lemma ClosedThenSwitched(s: Sys, t: Task) returns (s': Sys)
    requires s.alive && s.queues == [[ForceCloseT(1), t]] && s.connections == {1} && Known(s, 1)
    requires s.conns[1].loop == 0 && s.conns[1].conn == Disconnect(Establish(Fresh(None)))
    requires SwitchTask(t) && t.c == 1
    ensures var e := RunTask(0, WouldBlock);
            && Legal(s, e) && Legal(Step(s, e), e) && s' == Step(Step(s, e), e)
    ensures s'.alive && s'.queues == [[DestroyT(1)]] && Known(s', 1) && s'.conns[1].loop == 0
    ensures s'.conns[1].conn.state == Disconnected && s'.conns[1].conn.index == Added
    ensures s'.conns[1].conn.reading == t.StartReadT?
  {
    var e := RunTask(0, WouldBlock);
    var s1 := Step(s, e);
    assert s.queues[0][1..] == [t];
    assert Pop(s, 0).queues == [[t]];
    assert [t] + [DestroyT(1)] == [t, DestroyT(1)];
    assert s1 == CloseConn(Pop(s, 0), 1) && s1.queues == [[t, DestroyT(1)]];
    assert s1.conns[1].conn == HandleClose(Disconnect(Establish(Fresh(None))));
    assert s1.queues[0][1..] == [DestroyT(1)];
    assert Pop(s1, 0).queues == [[DestroyT(1)]];
    s' := Step(s1, e);
  }

  function LateSwitch(t: Task): seq<Event>
    requires SwitchTask(t) && t.c == 1
  {
    [Accept(None), ForceClose(1, None), Asked(t), RunTask(0, WouldBlock), RunTask(0, WouldBlock)]
  }

  lemma LateSwitchRuns(t: Task)
    requires SwitchTask(t) && t.c == 1
    ensures LegalRun(Init(0), LateSwitch(t))
    ensures var s := After(Init(0), LateSwitch(t));
            && s.alive && s.queues == [[DestroyT(1)]] && Known(s, 1) && s.conns[1].loop == 0
            && s.conns[1].conn.state == Disconnected && s.conns[1].conn.index == Added
            && s.conns[1].conn.reading == t.StartReadT?
  {
    var s1 := FirstAccepted();
    assert Fresh1(s1);
    var s3 := ForcedThenAsked(s1, t);
    var s5 := ClosedThenSwitched(s3, t);
    var f, r := ForceClose(1, None), RunTask(0, WouldBlock);
    RunOf2(s3, r, r);
    RunCons(Step(s1, f), Asked(t), [r, r]);
    RunCons(s1, f, [Asked(t), r, r]);
    RunCons(Init(0), Accept(None), [f, Asked(t), r, r]);
  }

  // stopRead queued behind the forced close: the close finds the connection reading and
  // takes it off the poller, the switch puts it back, and the next hangup fails handleClose.
  lemma LateStopReadFails()
    ensures LegalRun(Init(0), LateSwitch(StopReadT(1)))
    ensures var e := Report(1, Revents(true, false, false, false, false, false), Data, WouldBlock);
            var s := After(Init(0), LateSwitch(StopReadT(1))); Allowed(s, e) && !Asserts(s, e)
  {
    LateSwitchRuns(StopReadT(1));
  }

  // startRead instead: the destroy task finds a reading channel, and removeChannel fails.
  lemma LateStartReadFails()
    ensures LegalRun(Init(0), LateSwitch(StartReadT(1)))
    ensures var e := RunTask(0, WouldBlock);
            var s := After(Init(0), LateSwitch(StartReadT(1))); Allowed(s, e) && !Asserts(s, e)
  {
    LateSwitchRuns(StartReadT(1));
  }
}
