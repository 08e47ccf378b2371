/** The methods of TcpConnection over a real Buffer, proved against module Connection.
    Valid is what module Connection calls ConnOk: bytes conserved, write interest equal to
    having output, notifications equal to crossings, and the channel tracked by the poller. */
module TcpConnections {
  import opened Bytes
  import opened ChannelIndex
  import opened Buffers
  import opened Connection
  import Pollers

  class TcpConnection {
    var state: StateE
    var wantsRead: bool                // reading_
    var reading: bool
    var writing: bool
    var index: Index
    var registered: bool
    const outputBuffer: Buffer
    var highWaterMark: Option<nat>
    ghost var wire: seq<Byte>
    ghost var log: seq<SendCall>
    ghost var lens: seq<nat>
    ghost var notified: nat
    ghost var fin: Option<nat>
    ghost var lateWrites: nat

    ghost predicate Shaped()
      reads this, outputBuffer
    {
      outputBuffer.Valid()
    }

    ghost function View(): Conn
      reads this, outputBuffer, outputBuffer.buffer
      requires Shaped()
    {
      Conn(state, wantsRead, reading, writing, index, registered, outputBuffer.Contents(), highWaterMark,
           wire, log, lens, notified, fin, lateWrites)
    }

    ghost predicate Valid()
      reads this, outputBuffer, outputBuffer.buffer
    {
      Shaped() && ConnOk(View())
    }

    // What is on the wire and what is still to go there.
    ghost function Stream(): seq<Byte>
      reads this, outputBuffer, outputBuffer.buffer
      requires Shaped()
    {
      wire + outputBuffer.Contents()
    }

    constructor (mark: Option<nat>)
      ensures Valid() && fresh(outputBuffer) && fresh(outputBuffer.buffer) && View() == Fresh(mark)
    {
      state, wantsRead, reading, writing, index, registered := Connecting, true, false, false, New, false;
      outputBuffer := new Buffer(INITIAL_SIZE);
      highWaterMark := mark;
      wire, log, lens, notified, fin, lateWrites := [], [], [0], 0, None, 0;
    }

    // Channel::update on the epoll poller
    method UpdateChannel()
      requires Shaped()
      modifies this`index, this`registered
      ensures View() == Update(old(View()))
    {
      index := if index == Added && !reading && !writing then Deleted else Added;
      registered := true;
    }

    // sockets::write of data; w is the kernel's answer.
    ghost method WriteSocket(data: seq<Byte>, w: WriteResult)
      requires Possible(w, |data|)
      modifies this`wire, this`lateWrites
      ensures wire == old(wire) + data[..Written(w)]
      ensures lateWrites == old(lateWrites) + if fin.Some? then 1 else 0
    {
      wire := wire + data[..Written(w)];
      lateWrites := lateWrites + if fin.Some? then 1 else 0;
    }

    method BufferRest(rest: seq<Byte>)
      requires Shaped()
      modifies this`writing, this`index, this`registered, this`notified, outputBuffer, outputBuffer.buffer
      ensures Shaped() && View() == Enqueue(old(View()), rest)
      ensures outputBuffer.Contents() == old(outputBuffer.Contents()) + rest
      ensures notified == old(notified) +
                if highWaterMark.Some? && |old(outputBuffer.Contents())| < highWaterMark.value
                   && highWaterMark.value <= |outputBuffer.Contents()| then 1 else 0
    {
      if rest != [] {
        var oldLen := outputBuffer.ReadableBytes();
        if highWaterMark.Some? && oldLen + |rest| >= highWaterMark.value && oldLen < highWaterMark.value {
          notified := notified + 1;              // queueInLoop(highWaterMarkCallback_)
        }
        outputBuffer.Append(rest);
        EnableWriting();
      }
    }

    method EnableWriting()
      requires Shaped()
      modifies this`writing, this`index, this`registered
      ensures View() == if old(writing) then old(View()) else Update(old(View()).(writing := true))
    {
      if !writing {
        writing := true;
        UpdateChannel();
      }
    }

    // The first half of sendInLoop: write directly when nothing is queued.
    method TryToWrite(data: seq<Byte>, w: WriteResult) returns (nwrote: nat, faultError: bool)
      requires Shaped() && Possible(w, |data|)
      modifies this`wire, this`log, this`lateWrites
      ensures View() == TryWrite(old(View()), data, w) && nwrote <= |data|
      ensures nwrote == if WritesDirectly(old(View())) then Written(w) else 0
      ensures faultError == (WritesDirectly(old(View())) && w == Fault)
    {
      nwrote, faultError := 0, false;
      var readable := outputBuffer.ReadableBytes();
      if state != Disconnected && !writing && readable == 0 {
        log := log + [SendCall(data, state, Some(w))];
        WriteSocket(data, w);
        if w.Wrote? {
          nwrote := w.n;
        } else {
          faultError := w == Fault;
        }
      } else {
        log := log + [SendCall(data, state, None)];
      }
    }

    ghost method Note()
      requires Shaped()
      modifies this`lens
      ensures View() == Noted(old(View()))
    {
      lens := lens + [|outputBuffer.Contents()|];
    }

    method SendBody(data: seq<Byte>, w: WriteResult)
      requires Shaped() && Possible(w, |data|)
      modifies this, outputBuffer, outputBuffer.buffer
      ensures Shaped() && View() == Connection.SendInLoop(old(View()), data, w)
    {
      var nwrote, faultError := TryToWrite(data, w);
      if state != Disconnected && !faultError {
        assert data[0..] == data;
        BufferRest(data[nwrote..]);
      }
      Note();
    }

    // The message joins the stream at its end, or is dropped whole.
    method SendInLoop(data: seq<Byte>, w: WriteResult)
      requires Valid() && Possible(w, |data|)
      modifies this, outputBuffer, outputBuffer.buffer
      ensures Valid() && View() == Connection.SendInLoop(old(View()), data, w)
      ensures var direct := old(state) != Disconnected && !old(writing) && old(outputBuffer.Contents()) == [];
              && Stream() == old(Stream()) +
                 (if old(state) == Disconnected || (direct && w == Fault) then [] else data)
              && wire == old(wire) + if direct && w.Wrote? then data[..w.n] else []
      ensures notified == old(notified) +
                if highWaterMark.Some? && |old(outputBuffer.Contents())| < highWaterMark.value
                   && highWaterMark.value <= |outputBuffer.Contents()| then 1 else 0
    {
      SendKeepsConn(View(), data, w);
      SendNotifies(View(), data, w);
      SendAppends(View(), data, w);
      SendBody(data, w);
    }

    method ShutdownBody()
      requires Shaped()
      modifies this`fin
      ensures View() == Connection.ShutdownInLoop(old(View()))
    {
      if !writing {
        fin := if fin.Some? then fin else Some(|wire|);   // socket_->shutdownWrite()
      }
    }

    // SHUT_WR is issued exactly when the buffer is empty, and then everything undropped is
    // on the wire.
    method ShutdownInLoop()
      requires Valid()
      modifies this`fin
      ensures Valid() && View() == Connection.ShutdownInLoop(old(View()))
      ensures old(fin).Some? ==> fin == old(fin)
      ensures old(fin).None? && state != Disconnected ==> (fin.Some? <==> outputBuffer.Contents() == [])
      ensures old(fin).None? && state != Disconnected && fin.Some? ==>
                fin.value == |wire| && wire == Undropped(log)
    {
      ghost var k := View();
      ShutdownKeepsConn(k);
      if k.fin.None? && k.state != Disconnected {
        ShutdownFlushed(k);
      }
      ShutdownBody();
    }

    // After a write that took n bytes.
    method Drain(n: nat)
      requires Shaped() && 0 < n <= |View().out|
      modifies this, outputBuffer
      ensures Shaped()
      ensures var c1 := Noted(old(View()).(out := old(View()).out[n..]));
              View() == if c1.out != [] then c1 else
                        var c2 := Update(c1.(writing := false));
                        if c1.state == Disconnecting then Connection.ShutdownInLoop(c2) else c2
    {
      outputBuffer.Retrieve(n);
      Note();
      var left := outputBuffer.ReadableBytes();
      if left == 0 {
        writing := false;
        UpdateChannel();
        if state == Disconnecting {
          ShutdownBody();
        }
      }
    }

    method WriteBody(w: WriteResult)
      requires Shaped() && Possible(w, |View().out|)
      modifies this, outputBuffer
      ensures Shaped() && View() == Connection.HandleWrite(old(View()), w)
    {
      if writing {
        ghost var c := View();
        WriteSocket(outputBuffer.Contents(), w);
        assert View() == c.(wire := c.wire + c.out[..Written(w)], lateWrites := c.lateWrites + Late(c));
        if w.Wrote? && w.n > 0 {
          Drain(w.n);
        } else {
          assert c.wire + c.out[..0] == c.wire;
        }
      }
    }

    // Bytes move from the buffer to the wire.
    method HandleWrite(w: WriteResult)
      requires Valid() && Possible(w, |View().out|)
      modifies this, outputBuffer
      ensures Valid() && View() == Connection.HandleWrite(old(View()), w)
      ensures Stream() == old(Stream()) && state == old(state)
    {
      WriteKeepsConn(View(), w);
      WriteMoves(View(), w);
      WriteIsOutputStep(View(), w);
      WriteBody(w);
    }

    // setState(kDisconnected) and disableAll
    method CloseBody()
      requires Shaped()
      modifies this`state, this`reading, this`writing, this`index, this`registered
      ensures View() == Connection.HandleClose(old(View()))
    {
      state := Disconnected;
      reading, writing := false, false;
      UpdateChannel();
    }

    // Disconnected with an empty mask; the channel leaves the poller if it was watched and
    // otherwise comes back.  What was not written stays in the buffer.
    method HandleClose()
      requires Valid() && (state == Connected || state == Disconnecting)
      modifies this
      ensures Valid() && View() == Connection.HandleClose(old(View()))
      ensures state == Disconnected && !reading && !writing
      ensures index == if old(reading) || old(outputBuffer.Contents()) != [] then Deleted else Added
      ensures wire == old(wire) && outputBuffer.Contents() == old(outputBuffer.Contents()) && fin == old(fin)
    {
      LifeKeepsConn(View());
      CloseIndex(View());
      CloseBody();
    }

    // Watched for reading from now on.
    method ConnectEstablished()
      requires Valid() && state == Connecting
      modifies this
      ensures Valid() && View() == Establish(old(View()))
      ensures state == Connected && reading && wantsRead && index == Added && Stream() == old(Stream())
    {
      LifeKeepsConn(View());
      state := Connected;
      reading := true;
      UpdateChannel();
    }

    // Out of the poller for good, and fit for ~TcpConnection.
    method ConnectDestroyed()
      requires Valid() && (state == Connected || (state == Disconnected && !reading && !writing)) && registered
      modifies this
      ensures Valid() && View() == Destroy(old(View()))
      ensures state == Disconnected && !reading && !writing && index == New && !registered
      ensures Stream() == old(Stream())
    {
      LifeKeepsConn(View());
      if state == Connected {
        CloseBody();
      }
      index, registered := New, false;           // Channel::remove
    }

    method StopReadInLoop()
      requires Valid() && state != Connecting
      modifies this
      ensures Valid() && View() == StopRead(old(View()))
      ensures !reading && !wantsRead && Stream() == old(Stream())
      ensures state != Disconnected ==> (index == Added <==> outputBuffer.Contents() != [])
    {
      SwitchKeepsConn(View());
      if wantsRead || reading {
        reading := false;
        UpdateChannel();
        wantsRead := false;
      }
    }

    method StartReadInLoop()
      requires Valid() && state != Connecting
      modifies this
      ensures Valid() && View() == StartRead(old(View()))
      ensures reading && wantsRead && Stream() == old(Stream()) && (state != Disconnected ==> index == Added)
    {
      SwitchKeepsConn(View());
      if !wantsRead || !reading {
        reading := true;
        UpdateChannel();
        wantsRead := true;
      }
    }
  }

  // --- The index a connection carries is EPollPoller's mark -------------------------------

  // kReadEvent is EPOLLIN | EPOLLPRI, kWriteEvent is EPOLLOUT.
  function MaskOf(c: Conn): nat { (if c.reading then 3 else 0) + (if c.writing then 4 else 0) }

  // An update of the connection's channel is EPollPoller::updateChannel with its mask, so
  // the kernel watches the connection exactly while its index is Added.
  lemma IndexMirrorsEPoll(c: Conn, e: Pollers.EPollState, fd: nat)
    requires Pollers.EPollInv(e) && Pollers.MarkOf(e, fd) == c.index
    ensures var e' := Pollers.EPollUpdate(e, fd, MaskOf(c));
            && Pollers.MarkOf(e', fd) == Update(c).index
            && (fd in e'.kernel <==> Update(c).index == Added)
  {
    Pollers.EPollUpdateKeeps(e, fd, MaskOf(c));
  }
}
