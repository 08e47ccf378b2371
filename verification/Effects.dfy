/** What each step of the server does, in the fields of the connection it is about. */
module Effects {
  import opened Bytes
  import opened ChannelIndex
  import opened Connection
  import opened Server
  import opened LifeSteps
  import opened Lifecycle
  import opened OutputPath

  // --- Frames --------------------------------------------------------------------------

  // Nothing about any other connection changes.
  predicate OnlyAt(s: Sys, s': Sys, c: nat) {
    s'.conns.Keys == s.conns.Keys && forall d :: d in s.conns && d != c ==> s'.conns[d] == s.conns[d]
  }

  lemma CloseOnly(s: Sys, c: nat)
    requires Known(s, c)
    ensures OnlyAt(s, CloseConn(s, c), c)
    ensures CloseConn(s, c).conns[c].conn == HandleClose(s.conns[c].conn)
    ensures CloseConn(s, c).conns[c].closed == s.conns[c].closed + 1
  {
  }

  lemma PutConnOnly(s: Sys, c: nat, k: Conn)
    requires c in s.conns
    ensures OnlyAt(s, PutConn(s, c, k), c)
    ensures PutConn(s, c, k).conns[c].conn == k && PutConn(s, c, k).conns[c].closed == s.conns[c].closed
  {
  }

  // --- Reports ---------------------------------------------------------------------------

  // How many buffered bytes a report moves to the wire.
  function Taken(k: Conn, rev: Revents, w: WriteResult): nat { if rev.out && k.writing && w.Wrote? then w.n else 0 }

  lemma WriteMeans(k: Conn, w: WriteResult)
    requires Possible(w, |k.out|)
    ensures var k', n := HandleWrite(k, w), if k.writing && w.Wrote? then w.n else 0;
            && k'.wire == k.wire + k.out[..n] && k'.out == k.out[n..]
            && k'.state == k.state && k'.reading == k.reading && k'.notified == k.notified
            && (k'.writing <==> k.writing && (n == 0 || k'.out != []))
            && (n > 0 && k'.out == [] && k.state == Disconnecting && k.fin.None? ==> k'.fin == Some(|k'.wire|))
  {
  }

  lemma ReportCases(s: Sys, c: nat, rev: Revents, rd: ReadResult, w: WriteResult)
    requires Legal(s, Report(c, rev, rd, w)) && Open(s.conns[c].conn)
    ensures var closes := (rev.hup && !rev.in_) || ((rev.in_ || rev.pri || rev.rdhup) && rd == Eof);
            var s1, k := (if closes then CloseConn(s, c) else s), s.conns[c].conn;
            && Known(s1, c) && s1.conns[c].conn.out == k.out
            && HandleEvent(s, c, rev, rd, w) == HandleOut(s1, c, rev, w)
  {
  }

  // A report on an open connection closes it if and only if it is HUP without IN, or a read
  // of IN, PRI or RDHUP that met end of file; otherwise it only lets buffered bytes go out.
  lemma ReportMeans(s: Sys, c: nat, rev: Revents, rd: ReadResult, w: WriteResult)
    requires Legal(s, Report(c, rev, rd, w)) && Open(s.conns[c].conn)
    ensures var s' := Step(s, Report(c, rev, rd, w));
            && OnlyAt(s, s', c)
            && var r, r' := s.conns[c], s'.conns[c];
               var k, k' := r.conn, r'.conn;
               if (rev.hup && !rev.in_) || ((rev.in_ || rev.pri || rev.rdhup) && rd == Eof) then
                 && r'.closed == r.closed + 1 && k'.state == Disconnected && !k'.reading && !k'.writing
                 && k'.wire == k.wire && k'.out == k.out
               else
                 && r'.closed == r.closed && k'.state == k.state && k'.reading == k.reading
                 && k'.wire == k.wire + k.out[..Taken(k, rev, w)] && k'.out == k.out[Taken(k, rev, w)..]
                 && (Taken(k, rev, w) > 0 && k'.out == [] && k.state == Disconnecting && k.fin.None? ==>
                       k'.fin == Some(|k'.wire|))
  {
    ReportCases(s, c, rev, rd, w);
    CloseOnly(s, c);
    var closes := (rev.hup && !rev.in_) || ((rev.in_ || rev.pri || rev.rdhup) && rd == Eof);
    var s1 := if closes then CloseConn(s, c) else s;
    OutMeans(s1, c, rev, w);
  }

  lemma OutMeans(s: Sys, c: nat, rev: Revents, w: WriteResult)
    requires Known(s, c) && Possible(w, |s.conns[c].conn.out|)
    ensures var s' := HandleOut(s, c, rev, w);
            && OnlyAt(s, s', c)
            && var k, k' := s.conns[c].conn, s'.conns[c].conn;
               && s'.conns[c].closed == s.conns[c].closed
               && k'.wire == k.wire + k.out[..Taken(k, rev, w)] && k'.out == k.out[Taken(k, rev, w)..]
               && k'.state == k.state && k'.reading == k.reading && (!k.writing ==> !k'.writing)
               && (Taken(k, rev, w) > 0 && k'.out == [] && k.state == Disconnecting && k.fin.None? ==>
                     k'.fin == Some(|k'.wire|))
  {
    var k := s.conns[c].conn;
    if rev.out {
      WriteMeans(k, w);
      PutConnOnly(s, c, HandleWrite(k, w));
    }
  }

  // --- Sends -----------------------------------------------------------------------------

  // What a message handed to sendInLoop adds to the stream, and what of it goes out at once.
  predicate Sent(k: Conn, k': Conn, data: seq<Byte>, w: WriteResult)
    requires Possible(w, |data|)
  {
    var direct := k.state != Disconnected && !k.writing && k.out == [];
    && k'.wire + k'.out == k.wire + k.out +
       (if k.state == Disconnected || (direct && w == Fault) then [] else data)
    && k'.wire == (k.wire + if direct && w.Wrote? then data[..w.n] else [])
    && k'.state == k.state
  }

  lemma SendInLoopSends(k: Conn, data: seq<Byte>, w: WriteResult)
    requires Possible(w, |data|)
    ensures Sent(k, SendInLoop(k, data, w), data, w)
  {
    SendAppends(k, data, w);
    SendIsOutputStep(k, data, w);
  }

  // A message another thread queued reaches sendInLoop when its task runs.
  lemma QueuedSendMeans(s: Sys, l: nat, c: nat, data: seq<Byte>, from: nat, w: WriteResult)
    requires Allowed(s, RunTask(l, w)) && s.queues[l][0] == SendT(c, data, from)
    ensures var s' := Step(s, RunTask(l, w));
            && OnlyAt(s, s', c) && Sent(s.conns[c].conn, s'.conns[c].conn, data, w)
            && s'.queues == s.queues[l := s.queues[l][1..]]
  {
    var k := s.conns[c].conn;
    SendInLoopSends(k, data, w);
    PutConnOnly(Pop(s, l), c, SendInLoop(k, data, w));
  }

  // send() on the loop thread, and by another thread.
  lemma SendMeans(s: Sys, c: nat, data: seq<Byte>, w: WriteResult, caller: Option<nat>)
    requires Allowed(s, Send(c, data, w, caller))
    ensures var s' := Step(s, Send(c, data, w, caller));
            if s.conns[c].conn.state != Connected then s' == s
            else if caller.None? then OnlyAt(s, s', c) && Sent(s.conns[c].conn, s'.conns[c].conn, data, w)
            else s' == s.(inflight := s.inflight[caller.value := SendT(c, data, caller.value)])
  {
    var k := s.conns[c].conn;
    SendInLoopSends(k, data, w);
    PutConnOnly(s, c, SendInLoop(k, data, w));
  }

  // The push of another thread puts its task last in the queue of the connection's loop.
  lemma PushMeans(s: Sys, t: nat)
    requires Allowed(s, PushBy(t))
    ensures var s', task := Step(s, PushBy(t)), s.inflight[t];
            var l := s.conns[task.c].loop;
            && t !in s'.inflight && s'.conns == s.conns && s'.connections == s.connections
            && (forall x :: x != t ==> (x in s'.inflight <==> x in s.inflight))
            && s'.queues == s.queues[l := s.queues[l] + [task]]
  {
  }

  // --- Shutdown ----------------------------------------------------------------------------

  // SHUT_WR goes out at once when nothing is buffered, and waits for the drain otherwise.
  predicate ShutWr(k: Conn, k': Conn) {
    && k'.wire == k.wire && k'.out == k.out
    && (k.fin.None? ==> k'.fin == if k.out == [] then Some(|k.wire|) else None)
    && (k.fin.Some? ==> k'.fin == k.fin)
  }

  lemma QueuedShutdownMeans(s: Sys, l: nat, c: nat, w: WriteResult)
    requires Allowed(s, RunTask(l, w)) && s.queues[l][0] == ShutdownT(c)
    requires InterestMatches(s.conns[c].conn) && Open(s.conns[c].conn)
    ensures var s' := Step(s, RunTask(l, w));
            && OnlyAt(s, s', c) && ShutWr(s.conns[c].conn, s'.conns[c].conn)
            && s'.conns[c].conn.state == s.conns[c].conn.state
  {
  }

  lemma ShutdownMeans(s: Sys, c: nat, caller: Option<nat>)
    requires Allowed(s, Shutdown(c, caller)) && InterestMatches(s.conns[c].conn)
    ensures var s' := Step(s, Shutdown(c, caller));
            var k := s.conns[c].conn;
            if k.state != Connected then s' == s
            else
              && OnlyAt(s, s', c) && s'.conns[c].conn.state == Disconnecting && s'.queues == s.queues
              && if caller.None? then ShutWr(k, s'.conns[c].conn)
                 else s'.conns[c].conn.fin == k.fin && s'.inflight == s.inflight[caller.value := ShutdownT(c)]
  {
  }

  // --- Forced close --------------------------------------------------------------------------

  // On kConnected and on kDisconnecting the close is queued, or on its way to the queue.
  lemma ForceCloseMeans(s: Sys, c: nat, caller: Option<nat>)
    requires Allowed(s, ForceClose(c, caller))
    ensures var s', l := Step(s, ForceClose(c, caller)), s.conns[c].loop;
            var k := s.conns[c].conn;
            if k.state != Connected && k.state != Disconnecting then s' == s
            else
              && OnlyAt(s, s', c) && s'.conns[c].conn == k.(state := Disconnecting)
              && if caller.None? then s'.queues == s.queues[l := s.queues[l] + [ForceCloseT(c)]]
                 else s'.inflight == s.inflight[caller.value := ForceCloseT(c)] && s'.queues == s.queues
  {
  }

  lemma QueuedForceCloseMeans(s: Sys, l: nat, c: nat, w: WriteResult)
    requires Allowed(s, RunTask(l, w)) && s.queues[l][0] == ForceCloseT(c)
    ensures var s' := Step(s, RunTask(l, w));
            var r, r' := s.conns[c], s'.conns[c];
            && OnlyAt(s, s', c)
            && if r.conn.state == Connected || r.conn.state == Disconnecting then
                 && r'.closed == r.closed + 1 && r'.conn.state == Disconnected
                 && !r'.conn.reading && !r'.conn.writing
                 && r'.conn.wire == r.conn.wire && r'.conn.out == r.conn.out
               else r' == r
  {
    CloseOnly(Pop(s, l), c);
  }

  // --- The life-cycle tasks ------------------------------------------------------------------

  lemma EstablishMeans(s: Sys, l: nat, c: nat, w: WriteResult)
    requires Inv(s) && Legal(s, RunTask(l, w)) && s.queues[l][0] == EstablishT(c)
    ensures var s' := Step(s, RunTask(l, w));
            var r, r' := s.conns[c], s'.conns[c];
            && OnlyAt(s, s', c) && r.conn.state == Connecting && r.established == 0
            && r'.conn.state == Connected && r'.conn.reading && r'.conn.index == Added && r'.established == 1
  {
    assert Placed(s, l, EstablishT(c));
    var v := LifeOf(s, c);
    assert LifeOk(v);
    HeadCounted(s, l, EstablishT(c));
    EstablishedFrom(v);
    RunsEstablish(s, l, c, w);
  }

  lemma RunsEstablish(s: Sys, l: nat, c: nat, w: WriteResult)
    requires Allowed(s, RunTask(l, w)) && s.queues[l][0] == EstablishT(c)
    ensures var s' := Step(s, RunTask(l, w));
            OnlyAt(s, s', c) && s'.conns[c] == EstablishedRec(s.conns[c])
  {
  }

  lemma EstablishedFrom(v: Life)
    requires LifeOk(v) && v.establish > 0
    ensures v.r.conn.state == Connecting && v.r.established == 0
    ensures var k := Establish(v.r.conn); k.state == Connected && k.reading && k.index == Added
  {
  }

  lemma DestroyMeans(s: Sys, l: nat, c: nat, w: WriteResult)
    requires Legal(s, RunTask(l, w)) && s.queues[l][0] == DestroyT(c)
    ensures var s' := Step(s, RunTask(l, w));
            var k, k' := s.conns[c].conn, s'.conns[c].conn;
            && OnlyAt(s, s', c) && s'.conns[c].destroyed == s.conns[c].destroyed + 1
            && k'.state == Disconnected && !k'.reading && !k'.writing && k'.index == New && !k'.registered
            && k'.wire == k.wire && k'.out == k.out
  {
  }

  // --- startRead and stopRead ------------------------------------------------------------------

  predicate Reads(k: Conn, k': Conn, on: bool) {
    k'.reading == on && k'.wantsRead == on && k'.state == k.state && k'.wire == k.wire && k'.out == k.out
  }

  lemma QueuedReadMeans(s: Sys, l: nat, t: Task, w: WriteResult)
    requires Allowed(s, RunTask(l, w)) && s.queues[l][0] == t && SwitchTask(t)
    ensures var s' := Step(s, RunTask(l, w));
            OnlyAt(s, s', t.c) && Reads(s.conns[t.c].conn, s'.conns[t.c].conn, t.StartReadT?)
  {
  }

  lemma ReadMeans(s: Sys, e: Event)
    requires SwitchesRead(e) && Allowed(s, e)
    ensures var s', l := Step(s, e), s.conns[e.c].loop;
            var t := if e.StartRead? then StartReadT(e.c) else StopReadT(e.c);
            if e.local then OnlyAt(s, s', e.c) && Reads(s.conns[e.c].conn, s'.conns[e.c].conn, e.StartRead?)
            else s' == s.(queues := s.queues[l := s.queues[l] + [t]])
  {
  }
}
