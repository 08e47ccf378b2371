/** The methods of TcpServer, proved against the step system of module Server.  Valid is the
    life-cycle invariant of every connection together with the round-robin cursor. */
module TcpServers {
  import opened Bytes
  import opened ChannelIndex
  import opened Connection
  import opened Server
  import opened LifeSteps
  import opened Lifecycle

  class TcpServer {
    const n: nat                       // threads in the pool
    var nextConnId: nat
    var next: nat
    ghost var alive: bool
    var connections: set<nat>
    var conns: map<nat, Rec>
    var queues: seq<seq<Task>>
    ghost var inflight: map<nat, Task>

    ghost function View(): Sys
      reads this
    {
      Sys(n, nextConnId, next, alive, connections, conns, queues, inflight)
    }

    ghost predicate Valid()
      reads this
    {
      Inv(View()) && CursorOk(View())
    }

    constructor (threads: nat)
      ensures Valid() && View() == Init(threads)
    {
      n, nextConnId, next, alive := threads, 1, 0, true;
      connections, conns, queues, inflight := {}, map[], seq(threads + 1, _ => []), map[];
      new;
      InitInv(threads);
    }

    // EventLoop::queueInLoop of loop l
    method QueueInLoop(l: nat, t: Task)
      requires l < |queues|
      modifies this`queues
      ensures View() == Push(old(View()), l, t)
    {
      queues := queues[l := queues[l] + [t]];
    }

    // EventLoopThreadPool::getNextLoop: the loop the modulus gives the next connection, with
    // the cursor left where the one after it finds its own.
    method GetNextLoop() returns (l: nat)
      requires CursorOk(View())
      modifies this`next
      ensures l == LoopOf(n, nextConnId) && CursorOk(View().(nextConnId := nextConnId + 1))
      ensures l == NextLoop(old(View())) && next == NextCursor(old(View()))
    {
      l := 0;
      if n > 0 {
        NextModulo(nextConnId - 1, n);
        l := 1 + next;
        next := next + 1;
        if next >= n {
          next := 0;
        }
      }
    }

    method Admission(mark: Option<nat>) returns (c: nat)
      requires CursorOk(View()) && NextLoop(View()) < |queues|
      modifies this
      ensures View() == Server.NewConnection(old(View()), mark) && c == old(nextConnId)
    {
      var l := GetNextLoop();
      c := nextConnId;
      nextConnId := nextConnId + 1;
      conns := conns[c := FreshRec(l, mark)];
      connections := connections + {c};
      if l == 0 {                      // runInLoop on the acceptor's own thread
        conns := conns[c := EstablishedRec(conns[c])];
      } else {
        QueueInLoop(l, EstablishT(c));
      }
    }

    // The new connection is in the map, lives on the loop of its turn, and is established at
    // once on the base loop or has its establish task queued on its own.
    method NewConnection(mark: Option<nat>) returns (c: nat)
      requires Valid() && alive
      modifies this
      ensures Valid() && View() == Server.NewConnection(old(View()), mark)
      ensures c == old(nextConnId) && c !in old(conns) && c in conns
      ensures connections == old(connections) + {c}
      ensures conns[c].loop == LoopOf(n, c) && (conns[c].established == 1 <==> conns[c].loop == 0)
      ensures conns[c].loop < |queues| == |old(queues)|
      ensures conns[c].loop != 0 ==> queues[conns[c].loop] == old(queues)[conns[c].loop] + [EstablishT(c)]
    {
      AcceptKeeps(View(), mark);
      Accepted(View(), mark);
      c := Admission(mark);
    }

    method Erase(c: nat)
      requires Known(View(), c)
      modifies this`conns, this`connections, this`queues
      ensures View() == EraseConn(old(View()), c)
    {
      conns := conns[c := ErasedRec(conns[c])];
      connections := connections - {c};
      QueueInLoop(conns[c].loop, DestroyT(c));
    }

    // removeConnectionInLoop, as the task at the head of the base loop's queue: the
    // connection is there to be erased, closed, and next due for its destroy task.
    method RemoveConnectionInLoop(c: nat)
      requires Valid() && alive && queues[0] != [] && queues[0][0] == RemoveT(c)
      modifies this
      ensures Valid() && View() == EraseConn(Pop(old(View()), 0), c)
      ensures c in old(connections) && connections == old(connections) - {c}
      ensures c in conns && conns[c].closed == 1 && conns[c].erased == 1 && conns[c].destroyed == 0
      ensures conns[c].conn.state == Disconnected && 0 < conns[c].loop < |queues|
      ensures DestroyT(c) in queues[conns[c].loop] && RemoveT(c) !in queues[0]
    {
      RemoveKeeps(View(), c);
      RemovedLife(View(), c);
      queues := queues[0 := queues[0][1..]];
      Erase(c);
    }

    method Close(c: nat)
      requires Known(View(), c)
      modifies this`conns, this`connections, this`queues
      ensures View() == CloseConn(old(View()), c)
    {
      conns := conns[c := ClosedRec(conns[c])];
      if conns[c].loop == 0 {
        Erase(c);
      } else {
        QueueInLoop(0, RemoveT(c));
      }
    }

    // TcpConnection::handleClose and its closeCallback_, TcpServer::removeConnection, which
    // runs in place when the connection lives on the acceptor loop.
    method CloseConnection(c: nat)
      requires Valid() && alive && c in conns && Open(conns[c].conn)
      modifies this
      ensures Valid() && Known(View(), c)
      ensures conns[c].conn == HandleClose(old(conns)[c].conn) && conns[c].loop == old(conns)[c].loop
      ensures conns[c].closed == 1 && conns[c].destroyed == 0
      ensures connections == if conns[c].loop == 0 then old(connections) - {c} else old(connections)
      ensures if conns[c].loop == 0 then DestroyT(c) in queues[0] else RemoveT(c) in queues[0]
    {
      CloseKeeps(View(), c);
      Closed(View(), c);
      Close(c);
    }

    // One connection of ~TcpServer's loop.
    method DropConnection(c: nat)
      requires Known(View(), c)
      modifies this`conns, this`connections, this`queues
      ensures View() == DropConn(old(View()), c)
    {
      conns := conns[c := DroppedRec(conns[c])];
      connections := connections - {c};
      if conns[c].loop == 0 {
        conns := conns[c := DestroyedRec(conns[c])];
      } else {
        QueueInLoop(conns[c].loop, DestroyT(c));
      }
    }

    // ~TcpServer, when the connections of the base loop are kConnected: those are destroyed
    // at once, the others wait for the destroy task now in their loop's queue.
    method Destroy()
      requires Valid() && alive && Ready(View(), View())
      modifies this
      ensures Valid() && !alive && connections == {} && LetGo(old(View()), View())
    {
      ghost var s := View();
      DestructKeeps(s);
      alive := false;
      while connections != {}
        invariant Valid() && !alive && Ready(s, View()) && LetGo(s, View())
        decreases |connections|
      {
        var c :| c in connections;
        DropKeeps(s, View(), c);
        DropConnection(c);
      }
    }
  }

  // What s' still has in its map is as it was in s, and fit to be dropped.
  ghost predicate Ready(s: Sys, s': Sys) {
    forall c :: c in s'.connections ==>
      && c in s.connections && c in s.conns && c in s'.conns && s'.conns[c] == s.conns[c]
      && (s.conns[c].loop == 0 ==> s.conns[c].conn.state == Connected)
  }

  predicate DroppedTo(r: Rec, r': Rec) {
    && r'.dropped == r.dropped + 1 && r'.loop == r.loop
    && if r.loop == 0 then r'.destroyed == 1 && r'.conn.state == Disconnected && r'.conn.index == New
       else r'.conn == r.conn && r'.destroyed == r.destroyed
  }

  // From s to s' exactly the connections that left the map were dropped.
  ghost predicate LetGo(s: Sys, s': Sys) {
    && s'.conns.Keys == s.conns.Keys && s'.connections <= s.connections
    && forall c :: c in s.conns ==>
         if c in s.connections && c !in s'.connections then DroppedTo(s.conns[c], s'.conns[c])
         else s'.conns[c] == s.conns[c]
  }

  lemma AcceptKeeps(s: Sys, mark: Option<nat>)
    requires Inv(s) && CursorOk(s) && s.alive
    ensures NextLoop(s) < |s.queues| && Inv(NewConnection(s, mark)) && CursorOk(NewConnection(s, mark))
  {
    StepKeepsInv(s, Accept(mark));
    StepCursor(s, Accept(mark));
  }

  lemma Accepted(s: Sys, mark: Option<nat>)
    requires WellFormed(s) && CursorOk(s)
    ensures var s', c := NewConnection(s, mark), s.nextConnId;
            && c !in s.conns && c in s'.conns && s'.connections == s.connections + {c} && s'.n == s.n
            && s'.conns[c].loop == LoopOf(s.n, c) && (s'.conns[c].established == 1 <==> s'.conns[c].loop == 0)
            && s'.conns[c].loop < |s'.queues|
            && (s'.conns[c].loop != 0 ==>
                  s'.queues[s'.conns[c].loop] == s.queues[s'.conns[c].loop] + [EstablishT(c)])
  {
  }

  lemma RemoveKeeps(s: Sys, c: nat)
    requires Inv(s) && CursorOk(s) && s.alive && s.queues[0] != [] && s.queues[0][0] == RemoveT(c)
    ensures Known(s, c) && c in s.connections
    ensures Inv(EraseConn(Pop(s, 0), c)) && CursorOk(EraseConn(Pop(s, 0), c))
  {
    RemoveLegal(s, c);
    StepKeepsInv(s, RunTask(0, WouldBlock));
    StepCursor(s, RunTask(0, WouldBlock));
    RemoveStep(s, c);
  }

  lemma RemoveLegal(s: Sys, c: nat)
    requires Inv(s) && s.alive && s.queues[0] != [] && s.queues[0][0] == RemoveT(c)
    ensures Known(s, c) && c in s.connections && Legal(s, RunTask(0, WouldBlock))
  {
    assert Placed(s, 0, RemoveT(c)) && Good(s, c);
    HeadCounted(s, 0, RemoveT(c));
    EraseLife(LifeOf(s, c), c);
  }

  lemma RemoveStep(s: Sys, c: nat)
    requires Allowed(s, RunTask(0, WouldBlock)) && s.queues[0][0] == RemoveT(c)
    ensures Step(s, RunTask(0, WouldBlock)) == EraseConn(Pop(s, 0), c)
  {
  }

  lemma RemovedLife(s: Sys, c: nat)
    requires Inv(s) && CursorOk(s) && s.alive && s.queues[0] != [] && s.queues[0][0] == RemoveT(c)
    ensures Known(s, c)
    ensures var s' := EraseConn(Pop(s, 0), c);
            && s'.conns[c].closed == 1 && s'.conns[c].erased == 1 && s'.conns[c].destroyed == 0
            && s'.conns[c].conn.state == Disconnected && 0 < s'.conns[c].loop < |s'.queues|
            && DestroyT(c) in s'.queues[s'.conns[c].loop] && RemoveT(c) !in s'.queues[0]
  {
    RemoveKeeps(s, c);
    var s' := EraseConn(Pop(s, 0), c);
    HeadCounted(s, 0, RemoveT(c));
    assert LifeOk(LifeOf(s, c)) && LifeOk(LifeOf(s', c));
    assert Count(s', 0, RemoveT(c)) == 0 && Count(s', s'.conns[c].loop, DestroyT(c)) == 1;
  }

  lemma CloseKeeps(s: Sys, d: nat)
    requires Inv(s) && CursorOk(s) && s.alive && d in s.conns && Open(s.conns[d].conn)
    ensures Known(s, d) && Inv(CloseConn(s, d)) && CursorOk(CloseConn(s, d))
  {
    assert Good(s, d);
    OpenCanClose(s, d);
    CloseInv(s, d);
    CloseCursor(s, d);
  }

  lemma CloseCursor(s: Sys, d: nat)
    requires Known(s, d) && CursorOk(s)
    ensures CursorOk(CloseConn(s, d))
  {
    CloseSame(s, d);
  }

  lemma CloseInv(s: Sys, d: nat)
    requires Inv(s) && d in s.conns && CloseAsserts(s, d)
    ensures Inv(CloseConn(s, d))
  {
    assert Good(s, d);
    CloseGood(s, d, d);
    forall c | c in CloseConn(s, d).conns ensures Good(CloseConn(s, d), c) {
      assert Good(s, c);
      CloseGood(s, d, c);
    }
  }

  lemma Closed(s: Sys, d: nat)
    requires Inv(s) && s.alive && d in s.conns && Open(s.conns[d].conn)
    ensures Known(s, d)
    ensures var s' := CloseConn(s, d);
            && s'.conns[d].closed == 1 && s'.conns[d].destroyed == 0 && s'.conns[d].loop == s.conns[d].loop
            && s'.connections == (if s.conns[d].loop == 0 then s.connections - {d} else s.connections)
            && |s'.queues| == |s.queues|
            && if s.conns[d].loop == 0 then DestroyT(d) in s'.queues[0] else RemoveT(d) in s'.queues[0]
  {
    assert LifeOk(LifeOf(s, d));
  }

  lemma DestructKeeps(s: Sys)
    requires Inv(s) && s.alive
    ensures Inv(s.(alive := false))
  {
    StepKeepsInv(s, Destruct);
  }

  lemma DropKeeps(s: Sys, s1: Sys, d: nat)
    requires Inv(s1) && CursorOk(s1) && !s1.alive && d in s1.connections && Ready(s, s1) && LetGo(s, s1)
    ensures Known(s1, d) && Inv(DropConn(s1, d)) && CursorOk(DropConn(s1, d)) && !DropConn(s1, d).alive
    ensures Ready(s, DropConn(s1, d)) && LetGo(s, DropConn(s1, d))
    ensures |DropConn(s1, d).connections| < |s1.connections|
  {
    DropInv(s1, d);
    DropShape(s1, d);
    DropMeans(s1, d);
    LetGoStep(s, s1, DropConn(s1, d), d);
  }

  lemma DropInv(s: Sys, d: nat)
    requires Inv(s) && CursorOk(s) && !s.alive && d in s.connections
    requires s.conns[d].loop == 0 ==> s.conns[d].conn.state == Connected
    ensures Known(s, d) && Inv(DropConn(s, d)) && CursorOk(DropConn(s, d))
  {
    DropLegal(s, d);
    StepKeepsInv(s, Drop(d));
    StepCursor(s, Drop(d));
  }

  lemma DropLegal(s: Sys, d: nat)
    requires Inv(s) && !s.alive && d in s.connections
    requires s.conns[d].loop == 0 ==> s.conns[d].conn.state == Connected
    ensures Legal(s, Drop(d))
  {
    assert LifeOk(LifeOf(s, d));
  }

  lemma DropMeans(s: Sys, d: nat)
    requires Inv(s) && d in s.connections
    requires s.conns[d].loop == 0 ==> s.conns[d].conn.state == Connected
    ensures Known(s, d) && DroppedTo(s.conns[d], DropConn(s, d).conns[d])
  {
    assert Known(s, d) && LifeOk(LifeOf(s, d));
    DropRecord(s, d);
  }

  lemma DropRecord(s: Sys, d: nat)
    requires Known(s, d)
    ensures DropConn(s, d).conns[d] ==
              if s.conns[d].loop == 0 then DestroyedRec(DroppedRec(s.conns[d])) else DroppedRec(s.conns[d])
  {
  }

  lemma DropShape(s: Sys, d: nat)
    requires Known(s, d) && d in s.connections
    ensures var s' := DropConn(s, d);
            && s'.connections == s.connections - {d} && s'.alive == s.alive && s'.conns.Keys == s.conns.Keys
            && s'.conns == s.conns[d := s'.conns[d]]
            && |s'.connections| < |s.connections|
  {
    assert |s.connections - {d}| < |s.connections|;
  }

  lemma LetGoStep(s: Sys, s1: Sys, s2: Sys, d: nat)
    requires Ready(s, s1) && LetGo(s, s1) && d in s1.connections && s2.connections == s1.connections - {d}
    requires d in s2.conns && s2.conns == s1.conns[d := s2.conns[d]] && DroppedTo(s1.conns[d], s2.conns[d])
    ensures Ready(s, s2) && LetGo(s, s2)
  {
  }
}
