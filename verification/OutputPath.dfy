/** The output path in every reachable state of the server: byte conservation, write
    interest, high-water notifications, what shutdown(SHUT_WR) promises when sends and
    shutdowns stay on the loop thread, and where a close leaves the channel. */
module OutputPath {
  import opened Bytes
  import opened ChannelIndex
  import opened Connection
  import opened Server
  import opened LifeSteps
  import opened Lifecycle

  // --- One step of the system is at most a few Conn operations on one connection ----

  lemma CloseConnAt(s: Sys, d: nat, c: nat)
    requires Known(s, d) && c in s.conns
    ensures CloseConn(s, d).conns[c].conn == if c == d then HandleClose(s.conns[c].conn) else s.conns[c].conn
  {
  }

  lemma CloseKeepsOutput(k: Conn)
    requires OutputOk(k)
    ensures OutputOk(HandleClose(k)) && OutputOk(Destroy(k)) && OutputOk(ShutdownInLoop(k))
  {
  }

  lemma SwitchKeepsOutput(k: Conn)
    requires OutputOk(k)
    ensures OutputOk(Connection.StartRead(k)) && OutputOk(Connection.StopRead(k))
  {
  }

  lemma StateKeepsOutput(k: Conn, st: StateE)
    requires OutputOk(k) && k.state != Disconnected && st != Disconnected
    ensures OutputOk(k.(state := st)) && OutputOk(Establish(k))
  {
  }

  predicate OutputAt(s: Sys, c: nat) { c in s.conns && OutputOk(s.conns[c].conn) }

  lemma CloseOutput(s: Sys, d: nat, c: nat)
    requires Known(s, d) && OutputAt(s, c)
    ensures OutputAt(CloseConn(s, d), c)
  {
    CloseConnAt(s, d, c);
    CloseKeepsOutput(s.conns[c].conn);
  }

  lemma PutOutput(s: Sys, d: nat, k: Conn, c: nat)
    requires d in s.conns && OutputAt(s, c) && (c == d ==> OutputOk(k))
    ensures OutputAt(PutConn(s, d, k), c)
  {
  }

  lemma ReportOutput(s: Sys, d: nat, rev: Revents, rd: ReadResult, w: WriteResult, c: nat)
    requires Allowed(s, Report(d, rev, rd, w)) && OutputAt(s, c)
    ensures OutputAt(HandleEvent(s, d, rev, rd, w), c)
  {
    CloseOutput(s, d, c);
    var s1 := HandleHup(s, d, rev);
    CloseOutput(s1, d, c);
    OutOutput(HandleRead(s1, d, rev, rd), d, rev, w, c);
  }

  lemma OutOutput(s: Sys, d: nat, rev: Revents, w: WriteResult, c: nat)
    requires Known(s, d) && Possible(w, |s.conns[d].conn.out|) && OutputAt(s, c)
    ensures OutputAt(HandleOut(s, d, rev, w), c)
  {
    if c == d {
      WriteKeepsOutput(s.conns[c].conn, w);
    }
    PutOutput(s, d, HandleWrite(s.conns[d].conn, w), c);
  }

  lemma TaskOutput(s: Sys, t: Task, w: WriteResult, c: nat)
    requires Known(s, t.c) && (t.SendT? ==> Possible(w, |t.data|)) && OutputAt(s, c)
    requires t.EstablishT? ==> s.conns[t.c].conn.state == Connecting
    ensures OutputAt(Execute(s, t, w), c)
  {
    var k := s.conns[c].conn;
    CloseKeepsOutput(k);
    SwitchKeepsOutput(k);
    match t
    case EstablishT(d) => if c == d { StateKeepsOutput(k, Connected); }
    case SendT(d, data, _) => if c == d { SendKeepsOutput(k, data, w); }
    case ForceCloseT(d) => CloseOutput(s, d, c);
    case _ =>
  }

  lemma SendOutput(s: Sys, e: Event, c: nat)
    requires Allowed(s, e) && OutputAt(s, c) && e.Send?
    ensures OutputAt(Step(s, e), c)
  {
    var k := s.conns[e.c].conn;
    if k.state == Connected && e.caller.None? {
      if e.c == c { SendKeepsOutput(k, e.data, e.w); }
      PutOutput(s, e.c, SendInLoop(k, e.data, e.w), c);
      assert Step(s, e) == PutConn(s, e.c, SendInLoop(k, e.data, e.w));
    }
  }

  lemma EndOutput(s: Sys, e: Event, c: nat)
    requires Allowed(s, e) && OutputAt(s, c) && (e.Shutdown? || e.ForceClose?)
    ensures OutputAt(Step(s, e), c)
  {
    var k := s.conns[e.c].conn;
    if Open(k) {
      DisconnectOutput(s, e.c, c);
      if e.Shutdown? {
        assert Step(s, e).conns == s.conns || Step(s, e).conns == PutConn(s, e.c, Disconnect(k)).conns
            || Step(s, e).conns == PutConn(s, e.c, ShutdownInLoop(Disconnect(k))).conns;
      } else {
        assert Step(s, e).conns == PutConn(s, e.c, Disconnect(k)).conns;
      }
    }
  }

  lemma DisconnectOutput(s: Sys, d: nat, c: nat)
    requires d in s.conns && OutputAt(s, c) && Open(s.conns[d].conn)
    ensures OutputAt(PutConn(s, d, Disconnect(s.conns[d].conn)), c)
    ensures OutputAt(PutConn(s, d, ShutdownInLoop(Disconnect(s.conns[d].conn))), c)
  {
    var k := s.conns[d].conn;
    if c == d {
      StateKeepsOutput(k, Disconnecting);
      CloseKeepsOutput(Disconnect(k));
    }
  }

  lemma ReadOutput(s: Sys, t: Task, local: bool, c: nat)
    requires Known(s, t.c) && SwitchTask(t) && OutputAt(s, c)
    ensures OutputAt(UserRead(s, t, local), c)
  {
    TaskOutput(s, t, WouldBlock, c);
  }

  lemma DropOutput(s: Sys, d: nat, c: nat)
    requires Known(s, d) && OutputAt(s, c)
    ensures OutputAt(DropConn(s, d), c)
  {
    CloseKeepsOutput(s.conns[c].conn);
  }

  lemma AcceptOutput(s: Sys, mark: Option<nat>, c: nat)
    requires NextLoop(s) < |s.queues| && (c == s.nextConnId || OutputAt(s, c))
    ensures OutputAt(NewConnection(s, mark), c)
  {
    StateKeepsOutput(Fresh(mark), Connected);
  }

  lemma StepOutput(s: Sys, e: Event, c: nat)
    requires Legal(s, e) && (OutputAt(s, c) || (e.Accept? && c == s.nextConnId))
    ensures OutputAt(Step(s, e), c)
  {
    match e
    case Accept(mark) => AcceptOutput(s, mark, c);
    case RunTask(l, w) => TaskOutput(Pop(s, l), s.queues[l][0], w, c);
    case Report(d, rev, rd, w) => ReportOutput(s, d, rev, rd, w, c);
    case PushBy(_) =>
    case StartRead(d, local) => ReadOutput(s, StartReadT(d), local, c);
    case StopRead(d, local) => ReadOutput(s, StopReadT(d), local, c);
    case Destruct =>
    case Drop(d) => DropOutput(s, d, c);
    case Send(_, _, _, _) => SendOutput(s, e, c);
    case _ => EndOutput(s, e, c);
  }

  // --- Every run: conservation, write interest, high-water mark ----------------------

  ghost predicate OutInv(s: Sys) { Inv(s) && forall c :: c in s.conns ==> OutputAt(s, c) }

  lemma StepKeepsOutInv(s: Sys, e: Event)
    requires OutInv(s) && Legal(s, e)
    ensures OutInv(Step(s, e))
  {
    StepKeepsInv(s, e);
    StepKeys(s, e);
    forall c | c in Step(s, e).conns ensures OutputAt(Step(s, e), c) {
      StepOutput(s, e, c);
    }
  }

  lemma {:induction false} RunKeepsOutInv(s: Sys, es: seq<Event>)
    requires OutInv(s) && LegalRun(s, es)
    ensures OutInv(After(s, es))
    decreases |es|
  {
    if es != [] {
      StepKeepsOutInv(s, es[0]);
      RunKeepsOutInv(Step(s, es[0]), es[1..]);
    }
  }

  lemma Reached(n: nat, es: seq<Event>)
    requires LegalRun(Init(n), es)
    ensures OutInv(After(Init(n), es))
  {
    InitInv(n);
    RunKeepsOutInv(Init(n), es);
  }

  // In every reachable state the bytes the socket took, followed by the output buffer, are
  // the bytes of all undropped sendInLoop calls in call order, whatever the kernel answered.
  lemma ByteConservation(n: nat, es: seq<Event>, c: nat)
    requires LegalRun(Init(n), es) && c in After(Init(n), es).conns
    ensures var k := After(Init(n), es).conns[c].conn; k.wire + k.out == Undropped(k.log)
  {
    Reached(n, es);
    assert OutputAt(After(Init(n), es), c);
  }

  // Write interest is on exactly when there is something to write, until the close.
  lemma WriteInterest(n: nat, es: seq<Event>, c: nat)
    requires LegalRun(Init(n), es) && c in After(Init(n), es).conns
    ensures var k := After(Init(n), es).conns[c].conn;
            k.state != Disconnected ==> (k.writing <==> k.out != [])
  {
    Reached(n, es);
    assert OutputAt(After(Init(n), es), c);
  }

  predicate CrossesAt(k: Conn, i: nat) {
    i + 1 < |k.lens| && k.mark.Some? && k.lens[i] < k.mark.value && k.mark.value <= k.lens[i + 1]
  }

  predicate FallsAt(k: Conn, m: nat) {
    m + 1 < |k.lens| && k.mark.Some? && k.lens[m + 1] < k.mark.value <= k.lens[m]
  }

  predicate DropBetweenCrossings(k: Conn) {
    forall i: nat, j: nat :: i < j < |k.lens| && CrossesAt(k, i) && CrossesAt(k, j) ==>
      exists m: nat :: i < m < j && FallsAt(k, m)
  }

  // Notifications are the upward crossings of the mark, and between any two of them the
  // length falls from the mark or above to below it.
  lemma HighWaterNotifications(n: nat, es: seq<Event>, c: nat)
    requires LegalRun(Init(n), es) && c in After(Init(n), es).conns
    ensures var k := After(Init(n), es).conns[c].conn;
            && k.notified == Crossings(k.mark, k.lens)
            && k.lens != [] && k.lens[|k.lens| - 1] == |k.out|
    ensures DropBetweenCrossings(After(Init(n), es).conns[c].conn)
  {
    Reached(n, es);
    assert OutputAt(After(Init(n), es), c);
    TwoCrossings(After(Init(n), es).conns[c].conn);
  }

  // From a length at the mark or above to one below it there is a fall.
  lemma {:induction false} FindFall(k: Conn, from: nat, to: nat) returns (m: nat)
    requires from < to < |k.lens| && k.mark.Some? && k.lens[to] < k.mark.value <= k.lens[from]
    ensures from <= m < to && FallsAt(k, m)
    decreases |k.lens| - from
  {
    m := from;
    if k.mark.value <= k.lens[from + 1] {
      m := FindFall(k, from + 1, to);
    }
  }

  lemma TwoCrossings(k: Conn)
    ensures DropBetweenCrossings(k)
  {
    forall i: nat, j: nat | i < j < |k.lens| && CrossesAt(k, i) && CrossesAt(k, j)
      ensures exists m: nat :: i < m < j && FallsAt(k, m)
    {
      var m := FindFall(k, i + 1, j);
      assert i < m < j && FallsAt(k, m);
    }
  }

  // --- Where a close leaves the channel -------------------------------------------------

  // With startRead and stopRead used anywhere in the run: a close takes an open connection
  // off the poller exactly when it was reading or had output left, and otherwise puts it
  // back with an empty mask, to be reported again.
  lemma CloseUnwatchesExactly(n: nat, es: seq<Event>, c: nat)
    requires LegalRun(Init(n), es) && c in After(Init(n), es).conns && Open(After(Init(n), es).conns[c].conn)
    ensures var k := After(Init(n), es).conns[c].conn;
            && (k.index == Added <==> k.reading || k.writing)
            && HandleClose(k).index == if k.reading || k.out != [] then Deleted else Added
  {
    Reached(n, es);
    var s := After(Init(n), es);
    assert OutputAt(s, c) && LifeOk(LifeOf(s, c));
    CloseIndex(s.conns[c].conn);
  }

  // A connection watched after its close fails the assertion of handleClose on the next
  // hangup.
  lemma ReportAfterCloseFails(s: Sys, c: nat)
    requires Known(s, c) && Free(s, s.conns[c].loop)
    requires s.conns[c].conn.state == Disconnected && s.conns[c].conn.index == Added
    ensures var e := Report(c, Revents(true, false, false, false, false, false), Data, WouldBlock);
            Allowed(s, e) && !Asserts(s, e)
  {
  }

  // ... which a stopRead, a forceClose and its task bring about.
  lemma StopReadBreaksClose()
    ensures var es := [Accept(None), Server.StopRead(1, true), ForceClose(1, None), RunTask(0, WouldBlock)];
            && LegalRun(Init(0), es)
            && var s := After(Init(0), es);
               && Known(s, 1) && Free(s, s.conns[1].loop)
               && s.conns[1].conn.state == Disconnected && s.conns[1].conn.index == Added
  {
    var e1, e2: Event, e3, e4 := Accept(None), Server.StopRead(1, true), ForceClose(1, None), RunTask(0, WouldBlock);
    var s2 := FirstStopped();
    var s1 := Step(Init(0), e1);
    StoppedClose(s2);
    RunCons(s1, e2, [e3, e4]);
    assert [e2] + [e3, e4] == [e2, e3, e4];
    RunCons(Init(0), e1, [e2, e3, e4]);
    assert [e1] + [e2, e3, e4] == [e1, e2, e3, e4];
  }

  lemma FirstStopped() returns (s: Sys)
    ensures Legal(Init(0), Accept(None)) && Legal(Step(Init(0), Accept(None)), Server.StopRead(1, true))
    ensures s == Step(Step(Init(0), Accept(None)), Server.StopRead(1, true)) && Stopped(s)
  {
    var s1 := FirstAccepted();
    s := Step(s1, Server.StopRead(1, true));
  }

  // One idle connection on the base loop, off the poller.
  predicate Stopped(s: Sys) {
    && s.alive && |s.queues| == 1 && s.queues[0] == [] && s.connections == {1} && 1 in s.conns
    && s.conns[1].loop == 0 && s.conns[1].conn.state == Connected && ChannelOk(s.conns[1].conn)
    && Idle(s.conns[1].conn) && s.conns[1].conn.index == Deleted
  }

  lemma StoppedClose(s: Sys)
    requires Stopped(s)
    ensures var es := [ForceClose(1, None), RunTask(0, WouldBlock)];
            && LegalRun(s, es)
            && var s' := After(s, es);
               && Known(s', 1) && Free(s', s'.conns[1].loop)
               && s'.conns[1].conn.state == Disconnected && s'.conns[1].conn.index == Added
  {
    var e3, e4: Event := ForceClose(1, None), RunTask(0, WouldBlock);
    var s3 := Step(s, e3);
    assert s3.queues[0] == [ForceCloseT(1)];
    var s4 := Step(s3, e4);
    assert s4.conns[1].conn == HandleClose(s3.conns[1].conn);
    RunOf1(s3, e4);
    RunCons(s, e3, [e4]);
    assert [e3] + [e4] == [e3, e4];
  }

  // --- SHUT_WR when send and shutdown stay on the loop thread -------------------------

  predicate OnLoopThread(e: Event, c: nat) {
    (e.Send? || e.Shutdown?) && e.c == c ==> e.caller.None?
  }

  predicate FinOk(k: Conn) {
    && k.lateWrites == 0
    && (k.fin.Some? ==>
          (k.state == Disconnecting || k.state == Disconnected) && k.out == [] && k.fin.value == |k.wire|)
  }

  lemma FinAfterWrite(k: Conn, w: WriteResult)
    requires FinOk(k) && OutputOk(k) && Possible(w, |k.out|)
    ensures FinOk(HandleWrite(k, w))
  {
  }

  lemma FinAfterOps(k: Conn)
    requires FinOk(k) && OutputOk(k)
    ensures FinOk(HandleClose(k)) && FinOk(Destroy(k))
    ensures FinOk(Connection.StartRead(k)) && FinOk(Connection.StopRead(k))
    ensures k.state == Connecting ==> FinOk(Establish(k))
    ensures Open(k) ==> FinOk(Disconnect(k))
    ensures k.state == Connected ==> FinOk(ShutdownInLoop(Disconnect(k)))
  {
  }

  lemma FinAfterSend(k: Conn, data: seq<Byte>, w: WriteResult)
    requires FinOk(k) && k.state == Connected && Possible(w, |data|)
    ensures FinOk(SendInLoop(k, data, w))
  {
    var rest := SendSplit(k, data, w);
    EnqueueFrame(TryWrite(k, data, w), rest);
  }

  predicate Foreign(t: Task, c: nat) { t.c == c && (t.SendT? || t.ShutdownT?) }

  // c has no send or shutdown of another thread queued or on its way, and its histories
  // are as FinOk says.
  ghost predicate FlushInv(s: Sys, c: nat) {
    && (forall l, i :: 0 <= l < |s.queues| && 0 <= i < |s.queues[l]| ==> !Foreign(s.queues[l][i], c))
    && (forall t :: t in s.inflight ==> !Foreign(s.inflight[t], c))
    && (c in s.conns ==> FinOk(s.conns[c].conn))
  }

  lemma PushFlush(s: Sys, l: nat, t: Task, c: nat)
    requires FlushInv(s, c) && l < |s.queues| && !Foreign(t, c)
    ensures FlushInv(Push(s, l, t), c)
  {
  }

  lemma PutFlush(s: Sys, d: nat, r: Rec, c: nat)
    requires FlushInv(s, c) && (c == d ==> FinOk(r.conn))
    ensures FlushInv(Put(s, d, r), c)
  {
  }

  lemma EraseFlush(s: Sys, d: nat, c: nat)
    requires Known(s, d) && FlushInv(s, c)
    ensures FlushInv(EraseConn(s, d), c)
  {
    var r := s.conns[d];
    PutFlush(s, d, ErasedRec(r), c);
    PushFlush(Forget(Put(s, d, ErasedRec(r)), d), r.loop, DestroyT(d), c);
  }

  lemma CloseFlush(s: Sys, d: nat, c: nat)
    requires Known(s, d) && FlushInv(s, c) && OutputAt(s, d)
    ensures FlushInv(CloseConn(s, d), c)
  {
    var r := s.conns[d];
    var s1 := Put(s, d, ClosedRec(r));
    if c == d { FinAfterOps(r.conn); }
    PutFlush(s, d, ClosedRec(r), c);
    if r.loop == 0 { EraseFlush(s1, d, c); } else { PushFlush(s1, 0, RemoveT(d), c); }
  }

  lemma ReportFlush(s: Sys, d: nat, rev: Revents, rd: ReadResult, w: WriteResult, c: nat)
    requires Allowed(s, Report(d, rev, rd, w)) && FlushInv(s, c) && OutputAt(s, d)
    ensures FlushInv(HandleEvent(s, d, rev, rd, w), c)
  {
    CloseFlush(s, d, c);
    CloseOutput(s, d, d);
    var s1 := HandleHup(s, d, rev);
    CloseFlush(s1, d, c);
    CloseOutput(s1, d, d);
    WriteFlush(HandleRead(s1, d, rev, rd), d, w, c);
  }

  lemma WriteFlush(s: Sys, d: nat, w: WriteResult, c: nat)
    requires Known(s, d) && FlushInv(s, c) && OutputAt(s, d) && Possible(w, |s.conns[d].conn.out|)
    ensures FlushInv(PutConn(s, d, HandleWrite(s.conns[d].conn, w)), c)
  {
    var k := s.conns[d].conn;
    if c == d { FinAfterWrite(k, w); }
    PutFlush(s, d, WithConn(s.conns[d], HandleWrite(k, w)), c);
  }

  lemma TaskFlush(s: Sys, t: Task, w: WriteResult, c: nat)
    requires Known(s, t.c) && (t.SendT? ==> Possible(w, |t.data|)) && FlushInv(s, c) && OutputAt(s, t.c)
    requires t.EstablishT? ==> s.conns[t.c].conn.state == Connecting
    requires !Foreign(t, c)
    ensures FlushInv(Execute(s, t, w), c)
  {
    var r := s.conns[t.c];
    if c == t.c { FinAfterOps(r.conn); }
    match t
    case EstablishT(d) => PutFlush(s, d, EstablishedRec(r), c);
    case RemoveT(d) => EraseFlush(s, d, c);
    case DestroyT(d) => PutFlush(s, d, DestroyedRec(r), c);
    case ForceCloseT(d) => CloseFlush(s, d, c);
    case ShutdownT(d) => PutFlush(s, d, WithConn(r, ShutdownInLoop(r.conn)), c);
    case SendT(d, data, _) => PutFlush(s, d, WithConn(r, SendInLoop(r.conn, data, w)), c);
    case StartReadT(d) => PutFlush(s, d, WithConn(r, Connection.StartRead(r.conn)), c);
    case StopReadT(d) => PutFlush(s, d, WithConn(r, Connection.StopRead(r.conn)), c);
  }

  lemma RunTaskFlush(s: Sys, l: nat, w: WriteResult, c: nat)
    requires Legal(s, RunTask(l, w)) && FlushInv(s, c) && OutputAt(s, s.queues[l][0].c)
    ensures FlushInv(Step(s, RunTask(l, w)), c)
  {
    PopFlush(s, l, c);
    TaskFlush(Pop(s, l), s.queues[l][0], w, c);
  }

  lemma LaunchFlush(s: Sys, thread: nat, t: Task, c: nat)
    requires FlushInv(s, c) && !Foreign(t, c)
    ensures FlushInv(Launch(s, thread, t), c)
  {
  }

  lemma SendFlush(s: Sys, e: Event, c: nat)
    requires e.Send? && Allowed(s, e) && FlushInv(s, c) && OnLoopThread(e, c)
    ensures FlushInv(Step(s, e), c)
  {
    var r := s.conns[e.c];
    if r.conn.state == Connected {
      if e.caller.Some? {
        LaunchFlush(s, e.caller.value, SendT(e.c, e.data, e.caller.value), c);
      } else {
        if e.c == c { FinAfterSend(r.conn, e.data, e.w); }
        PutFlush(s, e.c, WithConn(r, SendInLoop(r.conn, e.data, e.w)), c);
      }
    }
  }

  lemma EndFlush(s: Sys, e: Event, c: nat)
    requires (e.Shutdown? || e.ForceClose?) && Allowed(s, e) && FlushInv(s, c) && OutputAt(s, e.c) && OnLoopThread(e, c)
    ensures FlushInv(Step(s, e), c)
  {
    var r := s.conns[e.c];
    var s1 := PutConn(s, e.c, Disconnect(r.conn));
    if e.c == c { FinAfterOps(r.conn); }
    if Open(r.conn) {
      PutFlush(s, e.c, WithConn(r, Disconnect(r.conn)), c);
      PushFlush(s1, r.loop, ForceCloseT(e.c), c);
      if e.Shutdown? && e.caller.None? {
        PutFlush(s, e.c, WithConn(r, ShutdownInLoop(Disconnect(r.conn))), c);
      } else if e.caller.Some? {
        LaunchFlush(s1, e.caller.value, if e.Shutdown? then ShutdownT(e.c) else ForceCloseT(e.c), c);
      }
    }
  }

  lemma LandFlush(s: Sys, t: nat, c: nat)
    requires Allowed(s, PushBy(t)) && FlushInv(s, c)
    ensures FlushInv(LandPush(s, t), c)
  {
    PushFlush(Land(s, t), s.conns[s.inflight[t].c].loop, s.inflight[t], c);
  }

  lemma ReadFlush(s: Sys, t: Task, local: bool, c: nat)
    requires Known(s, t.c) && SwitchTask(t) && FlushInv(s, c) && OutputAt(s, t.c)
    ensures FlushInv(UserRead(s, t, local), c)
  {
    TaskFlush(s, t, WouldBlock, c);
    PushFlush(s, s.conns[t.c].loop, t, c);
  }

  lemma DropFlush(s: Sys, d: nat, c: nat)
    requires Known(s, d) && FlushInv(s, c) && OutputAt(s, d)
    ensures FlushInv(DropConn(s, d), c)
  {
    var r := s.conns[d];
    var s1 := Forget(Put(s, d, DroppedRec(r)), d);
    PutFlush(s, d, DroppedRec(r), c);
    if c == d { FinAfterOps(r.conn); }
    PutFlush(s1, d, DestroyedRec(DroppedRec(r)), c);
    PushFlush(s1, r.loop, DestroyT(d), c);
  }

  lemma PopFlush(s: Sys, l: nat, c: nat)
    requires l < |s.queues| && s.queues[l] != [] && FlushInv(s, c)
    ensures !Foreign(s.queues[l][0], c) && FlushInv(Pop(s, l), c)
  {
    var s' := Pop(s, l);
    forall k, i | 0 <= k < |s'.queues| && 0 <= i < |s'.queues[k]| ensures !Foreign(s'.queues[k][i], c) {
      assert s'.queues[k][i] == s.queues[k][if k == l then i + 1 else i];
    }
  }

  lemma AcceptFlush(s: Sys, mark: Option<nat>, c: nat)
    requires Allowed(s, Accept(mark)) && FlushInv(s, c)
    ensures FlushInv(NewConnection(s, mark), c)
  {
    var d, l, s1 := s.nextConnId, NextLoop(s), Admit(s, mark);
    FinAfterOps(Fresh(mark));
    assert FlushInv(s1, c);
    PutFlush(s1, d, EstablishedRec(s1.conns[d]), c);
    PushFlush(s1, l, EstablishT(d), c);
  }

  lemma StepFlush(s: Sys, e: Event, c: nat)
    requires Legal(s, e) && OnLoopThread(e, c) && FlushInv(s, c)
    requires !e.Accept? && !e.Destruct? ==> OutputAt(s, ActsOn(s, e))
    ensures FlushInv(Step(s, e), c)
  {
    match e
    case Accept(mark) => AcceptFlush(s, mark, c);
    case RunTask(l, w) => RunTaskFlush(s, l, w, c);
    case Report(d, rev, rd, w) => ReportFlush(s, d, rev, rd, w, c);
    case Send(_, _, _, _) => SendFlush(s, e, c);
    case PushBy(t) => LandFlush(s, t, c);
    case StartRead(d, local) => ReadFlush(s, StartReadT(d), local, c);
    case StopRead(d, local) => ReadFlush(s, StopReadT(d), local, c);
    case Destruct =>
    case Drop(d) => DropFlush(s, d, c);
    case _ => EndFlush(s, e, c);
  }

  lemma ActsOnKnown(s: Sys, e: Event)
    requires OutInv(s) && Allowed(s, e) && !e.Accept? && !e.Destruct?
    ensures OutputAt(s, ActsOn(s, e))
  {
    assert ActsOn(s, e) in s.conns;
  }

  lemma StepKeepsFlush(s: Sys, e: Event, c: nat)
    requires OutInv(s) && Legal(s, e) && OnLoopThread(e, c) && FlushInv(s, c)
    ensures OutInv(Step(s, e)) && FlushInv(Step(s, e), c)
  {
    if !e.Accept? && !e.Destruct? { ActsOnKnown(s, e); }
    StepFlush(s, e, c);
    StepKeepsOutInv(s, e);
  }

  predicate AllOnLoopThread(es: seq<Event>, c: nat) { forall i :: 0 <= i < |es| ==> OnLoopThread(es[i], c) }

  lemma FirstFlush(s: Sys, es: seq<Event>, c: nat) returns (s': Sys)
    requires OutInv(s) && LegalRun(s, es) && FlushInv(s, c) && es != [] && OnLoopThread(es[0], c)
    ensures OutInv(s') && LegalRun(s', es[1..]) && FlushInv(s', c) && After(s, es) == After(s', es[1..])
  {
    StepKeepsFlush(s, es[0], c);
    s' := Step(s, es[0]);
  }

  lemma {:induction false} RunFlush(s: Sys, es: seq<Event>, c: nat)
    requires OutInv(s) && LegalRun(s, es) && FlushInv(s, c) && AllOnLoopThread(es, c)
    ensures FlushInv(After(s, es), c)
    decreases |es|
  {
    if es != [] {
      var s' := FirstFlush(s, es, c);
      RunFlush(s', es[1..], c);
    }
  }

  // When all sends and shutdowns of c are made on its loop thread, SHUT_WR comes only after
  // every undropped byte is on the wire, and no write(2) is made after it.
  lemma FlushBeforeFin(n: nat, es: seq<Event>, c: nat)
    requires LegalRun(Init(n), es) && c in After(Init(n), es).conns && AllOnLoopThread(es, c)
    ensures var k := After(Init(n), es).conns[c].conn;
            && k.lateWrites == 0
            && (k.fin.Some? ==> k.wire == Undropped(k.log) && k.fin.value == |k.wire|)
  {
    InitInv(n);
    RunFlush(Init(n), es, c);
    Reached(n, es);
    assert OutputAt(After(Init(n), es), c);
    var k := After(Init(n), es).conns[c].conn;
    if k.fin.Some? {
      assert k.wire + k.out == k.wire;
    }
  }
}
