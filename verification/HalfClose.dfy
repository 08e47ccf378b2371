/** shutdown(SHUT_WR) when other threads send and shut down too: it is final exactly when
    every send still to run stands behind a forced close. */
module HalfClose {
  import opened Bytes
  import opened ChannelIndex
  import opened Connection
  import opened Server
  import opened LifeSteps
  import opened Lifecycle
  import opened OutputPath

  predicate IsSend(t: Task, c: nat) { t.SendT? && t.c == c }

  // Every queued send of c runs after a forced close of c.
  ghost predicate Shielded(q: seq<Task>, c: nat) {
    forall i :: 0 <= i < |q| && IsSend(q[i], c) ==> ClosedBefore(q, c, i)
  }

  ghost predicate ClosedBefore(q: seq<Task>, c: nat, i: nat)
    requires i <= |q|
  {
    ForceCloseT(c) in q[..i]
  }

  // A thread has passed the test of send and not yet queued its message.
  ghost predicate Sending(s: Sys, c: nat) { exists t :: t in s.inflight && IsSend(s.inflight[t], c) }

  // No send of c, queued or on its way, will find c open.
  ghost predicate Final(s: Sys, c: nat)
    requires Known(s, c)
  {
    var q := s.queues[s.conns[c].loop];
    Shielded(q, c) && (Sending(s, c) ==> ForceCloseT(c) in q)
  }

  // c will never write again: it is closed, or empty, shutting down, and final.
  ghost predicate Finished(s: Sys, c: nat) {
    && Known(s, c)
    && var k := s.conns[c].conn;
       || k.state == Disconnected
       || (k.state == Disconnecting && k.out == [] && Final(s, c))
  }

  lemma ShieldedSnoc(q: seq<Task>, t: Task, c: nat)
    requires Shielded(q, c) && (IsSend(t, c) ==> ForceCloseT(c) in q)
    ensures Shielded(q + [t], c)
  {
    var q' := q + [t];
    forall i | 0 <= i < |q'| && IsSend(q'[i], c) ensures ClosedBefore(q', c, i) {
      assert q'[..i] == q[..i];
      if i < |q| {
        assert q'[i] == q[i] && ClosedBefore(q, c, i);
      } else {
        assert q[..i] == q;
      }
    }
  }

  lemma ShieldedTail(q: seq<Task>, c: nat)
    requires Shielded(q, c) && q != [] && q[0] != ForceCloseT(c)
    ensures !IsSend(q[0], c) && Shielded(q[1..], c)
    ensures ForceCloseT(c) in q ==> ForceCloseT(c) in q[1..]
  {
    assert !ClosedBefore(q, c, 0);
    assert q == [q[0]] + q[1..];
    forall i | 0 <= i < |q[1..]| && IsSend(q[1..][i], c) ensures ClosedBefore(q[1..], c, i) {
      assert q[i + 1] == q[1..][i] && ClosedBefore(q, c, i + 1);
      assert q[..i + 1] == [q[0]] + q[1..][..i];
    }
  }

  predicate NothingWritten(s: Sys, s': Sys, c: nat) {
    && c in s.conns && c in s'.conns
    && s'.conns[c].conn.wire == s.conns[c].conn.wire
    && s'.conns[c].conn.lateWrites == s.conns[c].conn.lateWrites
  }

  ghost predicate StaysFinished(s: Sys, s': Sys, c: nat) { Finished(s', c) && NothingWritten(s, s', c) }

  lemma PushFinished(s: Sys, l: nat, t: Task, c: nat)
    requires Finished(s, c) && l < |s.queues|
    requires IsSend(t, c) && s.conns[c].conn.state != Disconnected ==>
               l == s.conns[c].loop && ForceCloseT(c) in s.queues[l]
    ensures StaysFinished(s, Push(s, l, t), c)
  {
    var k, s' := s.conns[c].loop, Push(s, l, t);
    if s.conns[c].conn.state != Disconnected && l == k {
      ShieldedSnoc(s.queues[k], t, c);
    }
    assert s'.inflight == s.inflight;
  }

  // A change of the record of d that writes nothing.
  predicate Still(k: Conn, k': Conn) {
    && k'.wire == k.wire && k'.lateWrites == k.lateWrites
    && (k'.state == Disconnected || (k'.state == k.state && k'.out == k.out))
  }

  lemma PutFinished(s: Sys, d: nat, r: Rec, c: nat)
    requires Finished(s, c) && d in s.conns && r.loop == s.conns[d].loop
    requires d == c ==> Still(s.conns[c].conn, r.conn)
    ensures StaysFinished(s, Put(s, d, r), c)
  {
    assert Put(s, d, r).inflight == s.inflight;
  }

  lemma ForgetFinished(s: Sys, d: nat, c: nat)
    requires Finished(s, c)
    ensures StaysFinished(s, Forget(s, d), c)
  {
    assert Forget(s, d).inflight == s.inflight;
  }

  lemma LaunchFinished(s: Sys, thread: nat, t: Task, c: nat)
    requires Finished(s, c) && thread !in s.inflight
    requires IsSend(t, c) ==> s.conns[c].conn.state == Disconnected
    ensures StaysFinished(s, Launch(s, thread, t), c)
  {
    var s' := Launch(s, thread, t);
    if s.conns[c].conn.state != Disconnected && Sending(s', c) {
      var x :| x in s'.inflight && IsSend(s'.inflight[x], c);
      assert x in s.inflight && IsSend(s.inflight[x], c);
    }
  }

  lemma LandFinished(s: Sys, thread: nat, c: nat)
    requires Finished(s, c) && Allowed(s, PushBy(thread))
    ensures StaysFinished(s, LandPush(s, thread), c)
  {
    var t, s1 := s.inflight[thread], Land(s, thread);
    if s.conns[c].conn.state != Disconnected {
      assert IsSend(t, c) ==> Sending(s, c);
      if Sending(s1, c) {
        var x :| x in s1.inflight && IsSend(s1.inflight[x], c);
        assert x in s.inflight && IsSend(s.inflight[x], c);
      }
    }
    PushFinished(s1, s.conns[t.c].loop, t, c);
  }

  lemma EraseFinished(s: Sys, d: nat, c: nat)
    requires Finished(s, c) && Known(s, d)
    ensures StaysFinished(s, EraseConn(s, d), c)
  {
    var r := s.conns[d];
    PutFinished(s, d, ErasedRec(r), c);
    ForgetFinished(Put(s, d, ErasedRec(r)), d, c);
    PushFinished(Forget(Put(s, d, ErasedRec(r)), d), r.loop, DestroyT(d), c);
  }

  lemma CloseFinished(s: Sys, d: nat, c: nat)
    requires Finished(s, c) && Known(s, d)
    ensures StaysFinished(s, CloseConn(s, d), c)
  {
    var r := s.conns[d];
    var s1 := Put(s, d, ClosedRec(r));
    PutFinished(s, d, ClosedRec(r), c);
    if r.loop == 0 {
      EraseFinished(s1, d, c);
    } else {
      PushFinished(s1, 0, RemoveT(d), c);
    }
  }

  lemma DropFinished(s: Sys, d: nat, c: nat)
    requires Finished(s, c) && Known(s, d)
    ensures StaysFinished(s, DropConn(s, d), c)
  {
    var r := s.conns[d];
    var s1 := Put(s, d, DroppedRec(r));
    PutFinished(s, d, DroppedRec(r), c);
    ForgetFinished(s1, d, c);
    if r.loop == 0 {
      PutFinished(Forget(s1, d), d, DestroyedRec(DroppedRec(r)), c);
    } else {
      PushFinished(Forget(s1, d), r.loop, DestroyT(d), c);
    }
  }

  lemma WriteFinished(s: Sys, d: nat, w: WriteResult, c: nat)
    requires Finished(s, c) && Known(s, d) && Possible(w, |s.conns[d].conn.out|) && !s.conns[c].conn.writing
    ensures StaysFinished(s, PutConn(s, d, HandleWrite(s.conns[d].conn, w)), c)
  {
    PutFinished(s, d, WithConn(s.conns[d], HandleWrite(s.conns[d].conn, w)), c);
  }

  lemma ReportFinished(s: Sys, d: nat, rev: Revents, rd: ReadResult, w: WriteResult, c: nat)
    requires Allowed(s, Report(d, rev, rd, w)) && Finished(s, c) && OutputAt(s, c)
    ensures StaysFinished(s, HandleEvent(s, d, rev, rd, w), c)
  {
    CloseFinished(s, d, c);
    CloseOutput(s, d, c);
    var s1 := HandleHup(s, d, rev);
    CloseFinished(s1, d, c);
    CloseOutput(s1, d, c);
    WriteFinished(HandleRead(s1, d, rev, rd), d, w, c);
  }

  lemma SendFinished(s: Sys, e: Event, c: nat)
    requires e.Send? && Allowed(s, e) && Finished(s, c)
    ensures StaysFinished(s, Step(s, e), c)
  {
    var r := s.conns[e.c];
    if r.conn.state == Connected {
      if e.caller.Some? {
        LaunchFinished(s, e.caller.value, SendT(e.c, e.data, e.caller.value), c);
      } else {
        PutFinished(s, e.c, WithConn(r, SendInLoop(r.conn, e.data, e.w)), c);
      }
    }
  }

  lemma EndFinished(s: Sys, e: Event, c: nat)
    requires (e.Shutdown? || e.ForceClose?) && Allowed(s, e) && Finished(s, c)
    ensures StaysFinished(s, Step(s, e), c)
  {
    var d := e.c;
    var r := s.conns[d];
    var s1 := PutConn(s, d, Disconnect(r.conn));
    if Open(r.conn) && (e.ForceClose? || r.conn.state == Connected) {
      PutFinished(s, d, WithConn(r, Disconnect(r.conn)), c);
      if e.caller.Some? {
        LaunchFinished(s1, e.caller.value, if e.Shutdown? then ShutdownT(d) else ForceCloseT(d), c);
      } else if e.Shutdown? {
        PutFinished(s, d, WithConn(r, ShutdownInLoop(Disconnect(r.conn))), c);
      } else {
        PushFinished(s1, r.loop, ForceCloseT(d), c);
      }
    }
  }

  lemma TaskFinished(s: Sys, t: Task, w: WriteResult, c: nat)
    requires Finished(s, c) && Known(s, t.c) && (t.SendT? ==> Possible(w, |t.data|))
    requires t.EstablishT? ==> t.c != c
    requires IsSend(t, c) ==> s.conns[c].conn.state == Disconnected
    ensures StaysFinished(s, Execute(s, t, w), c)
  {
    var r := s.conns[t.c];
    match t
    case EstablishT(d) => PutFinished(s, d, EstablishedRec(r), c);
    case RemoveT(d) => EraseFinished(s, d, c);
    case DestroyT(d) => PutFinished(s, d, DestroyedRec(r), c);
    case ForceCloseT(d) => CloseFinished(s, d, c);
    case ShutdownT(d) => PutFinished(s, d, WithConn(r, ShutdownInLoop(r.conn)), c);
    case SendT(d, data, _) => PutFinished(s, d, WithConn(r, SendInLoop(r.conn, data, w)), c);
    case StartReadT(d) => PutFinished(s, d, WithConn(r, Connection.StartRead(r.conn)), c);
    case StopReadT(d) => PutFinished(s, d, WithConn(r, Connection.StopRead(r.conn)), c);
  }

  lemma PopFinished(s: Sys, l: nat, c: nat)
    requires Finished(s, c) && l < |s.queues| && s.queues[l] != [] && s.queues[l][0] != ForceCloseT(c)
    requires Placed(s, l, s.queues[l][0])
    ensures StaysFinished(s, Pop(s, l), c)
    ensures IsSend(s.queues[l][0], c) ==> s.conns[c].conn.state == Disconnected
  {
    assert Pop(s, l).inflight == s.inflight;
    if l == s.conns[c].loop && s.conns[c].conn.state != Disconnected {
      ShieldedTail(s.queues[l], c);
    }
  }

  lemma ForcedFinished(s: Sys, l: nat, c: nat)
    requires Known(s, c) && l < |s.queues| && s.queues[l] != [] && s.queues[l][0] == ForceCloseT(c)
    requires Finished(s, c)
    ensures StaysFinished(s, Execute(Pop(s, l), ForceCloseT(c), WouldBlock), c)
  {
    CloseConnAt(Pop(s, l), c, c);
  }

  lemma RunFinished(s: Sys, l: nat, w: WriteResult, c: nat)
    requires Inv(s) && Legal(s, RunTask(l, w)) && Finished(s, c)
    ensures StaysFinished(s, Step(s, RunTask(l, w)), c)
  {
    var t, s1 := s.queues[l][0], Pop(s, l);
    assert Placed(s, l, t);
    if t == ForceCloseT(c) {
      ForcedFinished(s, l, c);
    } else {
      PopFinished(s, l, c);
      TaskFinished(s1, t, w, c);
    }
  }

  lemma ReadFinished(s: Sys, t: Task, local: bool, c: nat)
    requires Known(s, t.c) && SwitchTask(t) && Finished(s, c)
    ensures StaysFinished(s, UserRead(s, t, local), c)
  {
    if local {
      TaskFinished(s, t, WouldBlock, c);
    } else {
      PushFinished(s, s.conns[t.c].loop, t, c);
    }
  }

  lemma AcceptFinished(s: Sys, mark: Option<nat>, c: nat)
    requires WellFormed(s) && Allowed(s, Accept(mark)) && Finished(s, c)
    ensures StaysFinished(s, NewConnection(s, mark), c)
  {
    var d, l, s1 := s.nextConnId, NextLoop(s), Admit(s, mark);
    assert c != d;
    assert s1.inflight == s.inflight;
    if l == 0 {
      PutFinished(s1, d, EstablishedRec(s1.conns[d]), c);
    } else {
      PushFinished(s1, l, EstablishT(d), c);
    }
  }

  lemma DieFinished(s: Sys, c: nat)
    requires Finished(s, c)
    ensures StaysFinished(s, s.(alive := false), c)
  {
    assert s.(alive := false).inflight == s.inflight;
  }

  lemma CallFinished(s: Sys, e: Event, c: nat)
    requires Allowed(s, e) && Finished(s, c)
    requires e.Send? || e.Shutdown? || e.ForceClose? || SwitchesRead(e) || e.PushBy?
    ensures StaysFinished(s, Step(s, e), c)
  {
    match e
    case Send(_, _, _, _) => SendFinished(s, e, c);
    case PushBy(t) => LandFinished(s, t, c);
    case StartRead(d, local) => ReadFinished(s, StartReadT(d), local, c);
    case StopRead(d, local) => ReadFinished(s, StopReadT(d), local, c);
    case _ => EndFinished(s, e, c);
  }

  lemma LoopFinished(s: Sys, e: Event, c: nat)
    requires Inv(s) && OutputAt(s, c) && Legal(s, e) && Finished(s, c) && (e.RunTask? || e.Report?)
    ensures StaysFinished(s, Step(s, e), c)
  {
    match e
    case RunTask(l, w) => RunFinished(s, l, w, c);
    case Report(d, rev, rd, w) => ReportFinished(s, d, rev, rd, w, c);
  }

  lemma ServerFinished(s: Sys, e: Event, c: nat)
    requires WellFormed(s) && Legal(s, e) && Finished(s, c) && (e.Accept? || e.Destruct? || e.Drop?)
    ensures StaysFinished(s, Step(s, e), c)
  {
    match e
    case Accept(mark) => AcceptFinished(s, mark, c);
    case Destruct => DieFinished(s, c);
    case Drop(d) => DropFinished(s, d, c);
  }

  lemma StepFinished(s: Sys, e: Event, c: nat)
    requires OutInv(s) && Legal(s, e) && Finished(s, c)
    ensures StaysFinished(s, Step(s, e), c)
  {
    assert OutputAt(s, c);
    if e.RunTask? || e.Report? {
      LoopFinished(s, e, c);
    } else if e.Accept? || e.Destruct? || e.Drop? {
      ServerFinished(s, e, c);
    } else {
      CallFinished(s, e, c);
    }
  }

  lemma FirstFinished(s: Sys, es: seq<Event>, c: nat) returns (s': Sys)
    requires OutInv(s) && LegalRun(s, es) && Finished(s, c) && es != []
    ensures OutInv(s') && LegalRun(s', es[1..]) && StaysFinished(s, s', c) && After(s, es) == After(s', es[1..])
  {
    StepFinished(s, es[0], c);
    StepKeepsOutInv(s, es[0]);
    s' := Step(s, es[0]);
  }

  // Nothing any thread, loop or the kernel does makes a finished connection write.
  lemma {:induction false} RunStaysFinished(s: Sys, es: seq<Event>, c: nat)
    requires OutInv(s) && LegalRun(s, es) && Finished(s, c)
    ensures StaysFinished(s, After(s, es), c)
    decreases |es|
  {
    if es != [] {
      var s' := FirstFinished(s, es, c);
      RunStaysFinished(s', es[1..], c);
    }
  }

  // --- A send that is not behind a forced close does write -------------------------------

  // c is half-closed with nothing buffered: SHUT_WR was issued and the close is to come.
  predicate HalfClosed(s: Sys, c: nat) {
    && Known(s, c)
    && var k := s.conns[c].conn; k.state == Disconnecting && k.out == [] && k.fin.Some?
  }

  predicate LateWriteIn(s: Sys, es: seq<Event>, c: nat, before: nat) {
    LegalRun(s, es) && c in After(s, es).conns && After(s, es).conns[c].conn.lateWrites > before
  }

  ghost predicate CanWriteLate(s: Sys, c: nat, before: nat) { exists es :: LateWriteIn(s, es, c, before) }

  lemma CanWriteNow(s: Sys, c: nat, before: nat)
    requires c in s.conns && s.conns[c].conn.lateWrites > before
    ensures CanWriteLate(s, c, before)
  {
    assert LateWriteIn(s, [], c, before);
  }

  lemma CanWriteNext(s: Sys, e: Event, c: nat, before: nat)
    requires Legal(s, e) && CanWriteLate(Step(s, e), c, before)
    ensures CanWriteLate(s, c, before)
  {
    var es :| LateWriteIn(Step(s, e), es, c, before);
    RunCons(s, e, es);
    assert LateWriteIn(s, [e] + es, c, before);
  }

  // Reached calmly.
  ghost predicate Calmly(s: Sys) { Quiet(s) && s.alive && forall c :: c in s.conns ==> OutputAt(s, c) }

  type CalmSys = s: Sys | Calmly(s) ghost witness Init(0)

  // Task i of q is the first send of c, and no forced close of c stands before it.
  predicate FirstSend(q: seq<Task>, c: nat, i: nat) {
    && i < |q| && IsSend(q[i], c)
    && forall j :: 0 <= j < i ==> q[j].c != c || !(q[j].SendT? || q[j].ForceCloseT?)
  }

  predicate AboutToWrite(s: Sys, c: nat, i: nat) {
    HalfClosed(s, c) && FirstSend(s.queues[s.conns[c].loop], c, i)
  }

  lemma NoLifeTaskWhileOpen(s: Sys, c: nat, l: nat)
    requires Quiet(s) && s.alive && HalfClosed(s, c) && l < |s.queues| && s.queues[l] != [] && s.queues[l][0].c == c
    ensures var t := s.queues[l][0]; t.SendT? || t.ShutdownT? || t.ForceCloseT?
  {
    var t := s.queues[l][0];
    assert Placed(s, l, t) && LifeOk(LifeOf(s, c));
    HeadCounted(s, l, t);
  }

  lemma ExecuteAside(s: Sys, t: Task, c: nat)
    requires Known(s, t.c) && HalfClosed(s, c) && (t.c == c ==> t.ShutdownT?)
    ensures var s' := Execute(s, t, WouldBlock);
            && HalfClosed(s', c) && s'.conns[c].loop == s.conns[c].loop
            && s'.conns[c].conn.lateWrites == s.conns[c].conn.lateWrites
  {
    TaskSame(s, t, WouldBlock);
    if t.ForceCloseT? {
      CloseConnAt(s, t.c, c);
    }
  }

  lemma FirstSendNext(q: seq<Task>, q': seq<Task>, c: nat, i: nat) returns (k: nat)
    requires FirstSend(q, c, i) && 0 < i && q[1..] <= q'
    ensures k < i && FirstSend(q', c, k)
  {
    k := i - 1;
    assert forall j :: 0 <= j < i ==> q'[j] == q[j + 1];
  }

  lemma CalmStep(s: CalmSys, e: Event)
    requires Allowed(s, e) && Calm(e)
    ensures Asserts(s, e) && Calmly(Step(s, e))
  {
    CalmAsserts(s, e);
    StepKeepsQuiet(s, e);
    StepKeepsOutInv(s, e);
    StepAlive(s, e);
  }

  lemma RunHeadOf(s: CalmSys, c: nat) returns (e: Event)
    requires HalfClosed(s, c) && s.queues[s.conns[c].loop] != []
    ensures Allowed(s, e) && Calm(e) && e == RunTask(s.conns[c].loop, WouldBlock)
  {
    var l := s.conns[c].loop;
    assert Placed(s, l, s.queues[l][0]);
    e := RunTask(l, WouldBlock);
  }

  // The head runs and is not yet the send.
  lemma RunPast(s: CalmSys, c: nat, i: nat) returns (k: nat)
    requires AboutToWrite(s, c, i) && 0 < i
    ensures var e := RunTask(s.conns[c].loop, WouldBlock);
            && Allowed(s, e) && HalfClosed(Step(s, e), c)
            && Step(s, e).conns[c].loop == s.conns[c].loop
            && Step(s, e).conns[c].conn.lateWrites == s.conns[c].conn.lateWrites
            && k < i && FirstSend(Step(s, e).queues[s.conns[c].loop], c, k)
  {
    var l := s.conns[c].loop;
    var t, s1 := s.queues[l][0], Pop(s, l);
    var e := RunHeadOf(s, c);
    if t.c == c {
      NoLifeTaskWhileOpen(s, c, l);
    }
    ExecuteAside(s1, t, c);
    TaskExtends(s1, t, WouldBlock, l);
    k := FirstSendNext(s.queues[l], Execute(s1, t, WouldBlock).queues[l], c, i);
  }

  // The head is the send: a direct write on the half-closed socket.
  lemma LateSend(k: Conn, data: seq<Byte>)
    requires k.state == Disconnecting && !k.writing && k.out == [] && k.fin.Some?
    ensures SendInLoop(k, data, WouldBlock).lateWrites == k.lateWrites + 1
  {
    var rest := SendSplit(k, data, WouldBlock);
    EnqueueFrame(TryWrite(k, data, WouldBlock), rest);
  }

  lemma WriteLate(s: CalmSys, c: nat)
    requires AboutToWrite(s, c, 0)
    ensures var e := RunTask(s.conns[c].loop, WouldBlock);
            && Allowed(s, e) && c in Step(s, e).conns
            && Step(s, e).conns[c].conn.lateWrites == s.conns[c].conn.lateWrites + 1
  {
    assert OutputAt(s, c);
    var l, k := s.conns[c].loop, s.conns[c].conn;
    var t := s.queues[l][0];
    LateSend(k, t.data);
    assert Execute(Pop(s, l), t, WouldBlock) == PutConn(Pop(s, l), c, SendInLoop(k, t.data, WouldBlock));
  }

  lemma WritesAtOnce(s: CalmSys, c: nat, before: nat)
    requires Tally(s, c, 0) == Some(before)
    ensures CanWriteLate(s, c, before)
  {
    var e := RunHeadOf(s, c);
    CalmStep(s, e);
    WriteLate(s, c);
    CanWriteNow(Step(s, e), c, before);
    CanWriteNext(s, e, c, before);
  }

  // The late writes of c so far, while its first send waits at place i.
  function Tally(s: Sys, c: nat, i: nat): Option<nat> {
    if AboutToWrite(s, c, i) then Some(s.conns[c].conn.lateWrites) else None
  }

  // One task nearer to the late write.
  lemma Approach(s: CalmSys, c: nat, i: nat, before: nat) returns (s': CalmSys, k: nat)
    requires Tally(s, c, i) == Some(before) && 0 < i
    ensures CanWriteLate(s', c, before) ==> CanWriteLate(s, c, before)
    ensures k < i && Tally(s', c, k) == Some(before)
  {
    var e := RunHeadOf(s, c);
    CalmStep(s, e);
    s' := Step(s, e);
    k := RunPast(s, c, i);
    if CanWriteLate(s', c, before) {
      CanWriteNext(s, e, c, before);
    }
  }

  // A send queued behind SHUT_WR and not behind a forced close does reach write(2).
  lemma {:induction false} LateWriteWitness(s: CalmSys, c: nat, i: nat, before: nat)
    requires Tally(s, c, i) == Some(before)
    ensures CanWriteLate(s, c, before)
    decreases i
  {
    if i == 0 {
      WritesAtOnce(s, c, before);
    } else {
      var s', k := Approach(s, c, i, before);
      LateWriteWitness(s', c, k, before);
    }
  }

  lemma FirstUnshielded(q: seq<Task>, c: nat) returns (i: nat)
    requires !Shielded(q, c)
    ensures FirstSend(q, c, i)
  {
    var k :| 0 <= k < |q| && IsSend(q[k], c) && !ClosedBefore(q, c, k);
    i := 0;
    while !IsSend(q[i], c)
      invariant i <= k
      invariant forall j :: 0 <= j < i ==> q[j].c != c || !(q[j].SendT? || q[j].ForceCloseT?)
      decreases k - i
    {
      assert q[i] in q[..k];
      i := i + 1;
    }
  }

  lemma QueuedWrites(s: CalmSys, c: nat)
    requires HalfClosed(s, c) && !Shielded(s.queues[s.conns[c].loop], c)
    ensures CanWriteLate(s, c, s.conns[c].conn.lateWrites)
  {
    var i := FirstUnshielded(s.queues[s.conns[c].loop], c);
    LateWriteWitness(s, c, i, s.conns[c].conn.lateWrites);
  }

  lemma LandsUnshielded(s: Sys, c: nat, t: nat)
    requires HalfClosed(s, c) && t in s.inflight && IsSend(s.inflight[t], c)
    requires ForceCloseT(c) !in s.queues[s.conns[c].loop]
    ensures Allowed(s, PushBy(t))
    ensures var s' := Step(s, PushBy(t));
            && HalfClosed(s', c) && !Shielded(s'.queues[s'.conns[c].loop], c)
            && s'.conns[c].conn.lateWrites == s.conns[c].conn.lateWrites
  {
    var q := s.queues[s.conns[c].loop];
    var q' := q + [s.inflight[t]];
    assert q'[|q|] == s.inflight[t] && q'[..|q|] == q;
    assert !ClosedBefore(q', c, |q|);
  }

  // A sender that passed its test before SHUT_WR can still queue its message after it.
  lemma InflightWrites(s: CalmSys, c: nat)
    requires HalfClosed(s, c) && Sending(s, c) && ForceCloseT(c) !in s.queues[s.conns[c].loop]
    ensures CanWriteLate(s, c, s.conns[c].conn.lateWrites)
  {
    var before := s.conns[c].conn.lateWrites;
    var t :| t in s.inflight && IsSend(s.inflight[t], c);
    var e, s' := Lands(s, c, t);
    QueuedWrites(s', c);
    CanWriteNext(s, e, c, before);
  }

  lemma Lands(s: CalmSys, c: nat, t: nat) returns (e: Event, s': CalmSys)
    requires HalfClosed(s, c) && t in s.inflight && IsSend(s.inflight[t], c)
    requires ForceCloseT(c) !in s.queues[s.conns[c].loop]
    ensures Legal(s, e) && s' == Step(s, e)
    ensures HalfClosed(s', c) && !Shielded(s'.queues[s'.conns[c].loop], c)
    ensures s'.conns[c].conn.lateWrites == s.conns[c].conn.lateWrites
  {
    e := PickLanding(s, c, t);
    s' := CalmNext(s, e);
  }

  lemma PickLanding(s: Sys, c: nat, t: nat) returns (e: Event)
    requires HalfClosed(s, c) && t in s.inflight && IsSend(s.inflight[t], c)
    requires ForceCloseT(c) !in s.queues[s.conns[c].loop]
    ensures Allowed(s, e) && Calm(e)
    ensures var s' := Step(s, e);
            && HalfClosed(s', c) && !Shielded(s'.queues[s'.conns[c].loop], c)
            && s'.conns[c].conn.lateWrites == s.conns[c].conn.lateWrites
  {
    e := PushBy(t);
    LandsUnshielded(s, c, t);
  }

  lemma CalmNext(s: CalmSys, e: Event) returns (s': CalmSys)
    requires Allowed(s, e) && Calm(e)
    ensures Legal(s, e) && s' == Step(s, e)
  {
    CalmStep(s, e);
    s' := Step(s, e);
  }

  ghost predicate NeverWritesAgain(s: Sys, c: nat)
    requires c in s.conns
  {
    forall es :: LegalRun(s, es) ==>
      c in After(s, es).conns && After(s, es).conns[c].conn.lateWrites == s.conns[c].conn.lateWrites
  }

  // Reached calmly, once SHUT_WR was issued with nothing buffered: no write(2) on c follows
  // in any continuation if and only if every queued send of c waits behind a forced close
  // of c, and so will the message of any sender in flight.
  lemma FinIsFinalExactly(n: nat, es: seq<Event>, c: nat)
    requires CalmRun(Init(n), es) && HalfClosed(After(Init(n), es), c)
    ensures NeverWritesAgain(After(Init(n), es), c) <==> Final(After(Init(n), es), c)
  {
    CalmState(n, es);
    Reached(n, es);
    FinalExactly(After(Init(n), es), c);
  }

  lemma FinalExactly(s: CalmSys, c: nat)
    requires HalfClosed(s, c)
    ensures NeverWritesAgain(s, c) <==> Final(s, c)
  {
    if Final(s, c) {
      forall more | LegalRun(s, more) ensures NothingWritten(s, After(s, more), c) {
        RunStaysFinished(s, more, c);
      }
    } else {
      if !Shielded(s.queues[s.conns[c].loop], c) { QueuedWrites(s, c); } else { InflightWrites(s, c); }
      var es :| LateWriteIn(s, es, c, s.conns[c].conn.lateWrites);
    }
  }

  // --- shutdown() from another thread -------------------------------------------------------

  predicate Busy(s: Sys, c: nat) {
    && Known(s, c) && Free(s, s.conns[c].loop)
    && var k := s.conns[c].conn;
       k.state == Connected && k.out != [] && k.writing && k.index == Added && ChannelOk(k)
  }

  function Drain(s: Sys, c: nat): Event
    requires c in s.conns
  {
    Report(c, Revents(false, false, false, false, false, true), Data, Wrote(|s.conns[c].conn.out|))
  }

  lemma DrainHalfCloses(s: Sys, c: nat)
    requires Known(s, c) && Free(s, s.conns[c].loop)
    requires var k := s.conns[c].conn;
             k.state == Disconnecting && k.out != [] && k.writing && k.index == Added && ChannelOk(k)
    ensures Legal(s, Drain(s, c)) && HalfClosed(Step(s, Drain(s, c)), c)
    ensures var s' := Step(s, Drain(s, c)); s'.queues == s.queues && s'.conns[c].loop == s.conns[c].loop
  {
  }

  lemma SendQueued(s: Sys, c: nat, t: nat, data: seq<Byte>)
    requires Busy(s, c) && t !in s.inflight
    ensures var e := Send(c, data, WouldBlock, Some(t));
            && Legal(s, e) && Legal(Step(s, e), PushBy(t))
            && Step(Step(s, e), PushBy(t)) == Push(s, s.conns[c].loop, SendT(c, data, t))
  {
    assert Land(Launch(s, t, SendT(c, data, t)), t) == s by {
      assert s.inflight[t := SendT(c, data, t)] - {t} == s.inflight;
    }
  }

  lemma ShutdownFlies(s: Sys, c: nat, t: nat)
    requires Busy(s, c) && t !in s.inflight
    ensures Legal(s, Shutdown(c, Some(t)))
    ensures Step(s, Shutdown(c, Some(t))) == Launch(PutConn(s, c, Disconnect(s.conns[c].conn)), t, ShutdownT(c))
  {
  }

  lemma RunOf4(s: Sys, e1: Event, e2: Event, e3: Event, e4: Event) returns (es: seq<Event>)
    requires Legal(s, e1) && Legal(Step(s, e1), e2) && Legal(Step(Step(s, e1), e2), e3)
    requires Legal(Step(Step(Step(s, e1), e2), e3), e4)
    ensures LegalRun(s, es) && After(s, es) == Step(Step(Step(Step(s, e1), e2), e3), e4)
  {
    var s1 := Step(s, e1);
    var s2 := Step(s1, e2);
    RunOf1(Step(s2, e3), e4);
    RunCons(s2, e3, [e4]);
    RunCons(s1, e2, [e3] + [e4]);
    RunCons(s, e1, [e2] + ([e3] + [e4]));
    es := [e1] + ([e2] + ([e3] + [e4]));
  }

  // shutdown() from another thread can put SHUT_WR ahead of a send queued before it: with
  // bytes buffered, a foreign send is queued, a foreign shutdown sets kDisconnecting, and the
  // write event that drains the buffer sees it.  Any busy connection can be taken there.
  lemma ForeignShutdownOvertakesSend(s: Sys, c: nat, t: nat, data: seq<Byte>) returns (es: seq<Event>)
    requires Busy(s, c) && t !in s.inflight && ForceCloseT(c) !in s.queues[s.conns[c].loop]
    ensures LegalRun(s, es) && HalfClosed(After(s, es), c) && !Final(After(s, es), c)
  {
    var l, q := s.conns[c].loop, s.queues[s.conns[c].loop];
    SendQueued(s, c, t, data);
    var s2 := Push(s, l, SendT(c, data, t));
    ShutdownFlies(s2, c, t);
    var s3 := Launch(PutConn(s2, c, Disconnect(s.conns[c].conn)), t, ShutdownT(c));
    DrainHalfCloses(s3, c);
    es := RunOf4(s, Send(c, data, WouldBlock, Some(t)), PushBy(t), Shutdown(c, Some(t)), Drain(s3, c));
    Unshielded(q, c, t, data);
  }

  lemma Unshielded(q: seq<Task>, c: nat, t: nat, data: seq<Byte>)
    requires ForceCloseT(c) !in q
    ensures !Shielded(q + [SendT(c, data, t)], c)
  {
    var q' := q + [SendT(c, data, t)];
    assert q'[|q|] == SendT(c, data, t) && q'[..|q|] == q;
    assert !ClosedBefore(q', c, |q|);
  }

  // A send the kernel would block on goes to the buffer.
  lemma BlockedSendBuffers(k: Conn, data: seq<Byte>)
    requires WritesDirectly(k) && k.index == Added && data != []
    ensures var k' := SendInLoop(k, data, WouldBlock);
            k'.out == data && k'.writing && k'.index == Added && k'.registered && k'.state == k.state
  {
    var c := TryWrite(k, data, WouldBlock);
    TryWriteFrame(k, data, WouldBlock);
    assert data[0..] == data;
    EnqueueFrame(c, data);
    assert c.out + data == data;
  }

  lemma FirstSendBuffers(s: Sys) returns (e: Event)
    requires Known(s, 1) && Free(s, s.conns[1].loop)
    requires var k := s.conns[1].conn; k.state == Connected && k.index == Added && ChannelOk(k) && WritesDirectly(k)
    ensures Calm(e) && Legal(s, e) && Busy(Step(s, e), 1)
    ensures Step(s, e).inflight == s.inflight && Step(s, e).queues == s.queues
  {
    var k := s.conns[1].conn;
    BlockedSendBuffers(k, [7]);
    e := Send(1, [7], WouldBlock, None);
    SendPuts(s, [7]);
  }

  lemma SendPuts(s: Sys, data: seq<Byte>)
    requires Known(s, 1) && Free(s, s.conns[1].loop) && s.conns[1].conn.state == Connected
    ensures var e := Send(1, data, WouldBlock, None);
            Allowed(s, e) && Step(s, e) == PutConn(s, 1, SendInLoop(s.conns[1].conn, data, WouldBlock))
  {
  }

  lemma FreshlyEstablished(k: Conn)
    requires k == Establish(Fresh(None))
    ensures k.state == Connected && k.index == Added && ChannelOk(k) && WritesDirectly(k)
  {
  }

  // Busy connections are reachable.
  lemma BusyReachable() returns (es: seq<Event>)
    ensures CalmRun(Init(0), es)
    ensures var s := After(Init(0), es); Busy(s, 1) && s.inflight == map[] && s.queues == [[]]
  {
    var s1 := FirstAccepted();
    FreshlyEstablished(s1.conns[1].conn);
    var e := FirstSendBuffers(s1);
    RunOf2(Init(0), Accept(None), e);
    es := [Accept(None), e];
  }
}
