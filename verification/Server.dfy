/** TcpServer, its connections and the task queues of its loops, as one step system.
    Loop 0 is the acceptor loop, loops 1..n the I/O loops of the thread pool.  Every
    task queue is FIFO (module EventLoops proves that of doPendingFunctors).  The assertions
    of the source are the predicates `...Asserts`; a call that reaches the server after its
    destructor began counts as a failed one. */
module Server {
  import opened Bytes
  import opened ChannelIndex
  import opened Connection

  datatype Rec = Rec(
    loop: nat,
    conn: Conn,
    established: nat,           // histories: calls of connectEstablished, handleClose,
    closed: nat,                // removeConnectionInLoop and connectDestroyed
    erased: nat,
    dropped: nat,               // history: taken out of the map by ~TcpServer
    destroyed: nat)

  datatype Task =
    | EstablishT(c: nat) | RemoveT(c: nat) | DestroyT(c: nat)
    | ForceCloseT(c: nat) | ShutdownT(c: nat) | SendT(c: nat, data: seq<Byte>, from: nat)
    | StartReadT(c: nat) | StopReadT(c: nat)

  datatype Sys = Sys(
    n: nat,                     // size of the thread pool
    nextConnId: nat,
    next: nat,                  // round-robin cursor of the pool
    alive: bool,                // ~TcpServer has not begun
    connections: set<nat>,      // keys of connections_; the name of a connection is its id
    conns: map<nat, Rec>,       // every connection ever created
    queues: seq<seq<Task>>,     // pending tasks of each loop
    inflight: map<nat, Task>)   // threads between their test of state_ and their push

  datatype Revents = Revents(hup: bool, in_: bool, pri: bool, rdhup: bool, err: bool, out: bool)

  datatype ReadResult = Data | Eof | ReadError

  // `caller` is the calling thread, None on the connection's loop thread.
  datatype Event =
    | Accept(mark: Option<nat>)
    | RunTask(loop: nat, w: WriteResult)
    | Report(c: nat, rev: Revents, rd: ReadResult, w: WriteResult)
    | Send(c: nat, data: seq<Byte>, w: WriteResult, caller: Option<nat>)
    | Shutdown(c: nat, caller: Option<nat>)
    | ForceClose(c: nat, caller: Option<nat>)
    | PushBy(thread: nat)       // the queueInLoop of a call by another thread
    | StartRead(c: nat, local: bool)
    | StopRead(c: nat, local: bool)
    | Destruct                  // ~TcpServer begins
    | Drop(c: nat)              // an iteration of its loop

  function Init(n: nat): Sys {
    Sys(n, 1, 0, true, {}, map[], seq(n + 1, _ => []), map[])
  }

  // --- Records: one history entry per call of the life-cycle functions -------------

  function WithConn(r: Rec, k: Conn): Rec { r.(conn := k) }

  function EstablishedRec(r: Rec): Rec { r.(conn := Establish(r.conn), established := r.established + 1) }

  function ClosedRec(r: Rec): Rec { r.(conn := HandleClose(r.conn), closed := r.closed + 1) }

  function ErasedRec(r: Rec): Rec { r.(erased := r.erased + 1) }

  function DroppedRec(r: Rec): Rec { r.(dropped := r.dropped + 1) }

  function DestroyedRec(r: Rec): Rec { r.(conn := Destroy(r.conn), destroyed := r.destroyed + 1) }

  // --- Operations ----------------------------------------------------------------

  predicate Known(s: Sys, c: nat) {
    c in s.conns && s.conns[c].loop < |s.queues| && 0 < |s.queues|
  }

  function Push(s: Sys, l: nat, t: Task): Sys
    requires l < |s.queues|
  {
    s.(queues := s.queues[l := s.queues[l] + [t]])
  }

  function Pop(s: Sys, l: nat): Sys
    requires l < |s.queues| && s.queues[l] != []
  {
    s.(queues := s.queues[l := s.queues[l][1..]])
  }

  function Put(s: Sys, c: nat, r: Rec): Sys { s.(conns := s.conns[c := r]) }

  function Forget(s: Sys, c: nat): Sys { s.(connections := s.connections - {c}) }

  function Launch(s: Sys, thread: nat, t: Task): Sys { s.(inflight := s.inflight[thread := t]) }

  function Land(s: Sys, thread: nat): Sys { s.(inflight := s.inflight - {thread}) }

  function PutConn(s: Sys, c: nat, k: Conn): (s': Sys)
    requires c in s.conns
    ensures s'.conns.Keys == s.conns.Keys
  {
    Put(s, c, WithConn(s.conns[c], k))
  }

  // TcpConnection::connectEstablished
  function EstablishConn(s: Sys, c: nat): (s': Sys)
    requires Known(s, c)
    ensures s'.conns.Keys == s.conns.Keys
  {
    Put(s, c, EstablishedRec(s.conns[c]))
  }

  predicate EstablishAsserts(s: Sys, c: nat)
    requires Known(s, c)
  {
    s.conns[c].conn.state == Connecting && ChannelOk(s.conns[c].conn)
  }

  // TcpServer::removeConnectionInLoop
  function EraseConn(s: Sys, c: nat): (s': Sys)
    requires Known(s, c)
    ensures s'.conns.Keys == s.conns.Keys
  {
    var r := s.conns[c];
    Push(Forget(Put(s, c, ErasedRec(r)), c), r.loop, DestroyT(c))
  }

  predicate EraseAsserts(s: Sys, c: nat) { s.alive && c in s.connections }

  // TcpConnection::handleClose, then TcpServer::removeConnection through runInLoop
  function CloseConn(s: Sys, c: nat): (s': Sys)
    requires Known(s, c)
    ensures Known(s', c) && s'.conns[c].conn == HandleClose(s.conns[c].conn)
    ensures s'.conns.Keys == s.conns.Keys
  {
    var r := s.conns[c];
    var s1 := Put(s, c, ClosedRec(r));
    if r.loop == 0 then EraseConn(s1, c) else Push(s1, 0, RemoveT(c))
  }

  predicate CloseAsserts(s: Sys, c: nat)
    requires Known(s, c)
  {
    && s.alive && Open(s.conns[c].conn) && ChannelOk(s.conns[c].conn)
    && (s.conns[c].loop == 0 ==> EraseAsserts(s, c))
  }

  // TcpConnection::connectDestroyed
  function DestroyConn(s: Sys, c: nat): (s': Sys)
    requires Known(s, c)
    ensures s'.conns.Keys == s.conns.Keys
  {
    Put(s, c, DestroyedRec(s.conns[c]))
  }

  // What EPollPoller::removeChannel asserts, and ~TcpConnection after it.
  predicate DestroyAsserts(s: Sys, c: nat)
    requires Known(s, c)
  {
    var k := s.conns[c].conn;
    && (k.state == Connected || (k.state == Disconnected && Idle(k)))
    && k.index != New && ChannelOk(k)
  }

  // One connection of ~TcpServer's loop: connectDestroyed through runInLoop
  function DropConn(s: Sys, c: nat): (s': Sys)
    requires Known(s, c)
    ensures s'.conns.Keys == s.conns.Keys
  {
    var r := s.conns[c];
    var s1 := Forget(Put(s, c, DroppedRec(r)), c);
    if r.loop == 0 then DestroyConn(s1, c) else Push(s1, r.loop, DestroyT(c))
  }

  predicate DropAsserts(s: Sys, c: nat)
    requires Known(s, c)
  {
    s.conns[c].loop == 0 ==> DestroyAsserts(s, c)
  }

  // EventLoopThreadPool::getNextLoop
  function NextLoop(s: Sys): nat { if s.n == 0 then 0 else 1 + s.next }

  function NextCursor(s: Sys): nat {
    if s.n == 0 then s.next else if s.next + 1 >= s.n then 0 else s.next + 1
  }

  function FreshRec(l: nat, mark: Option<nat>): Rec { Rec(l, Fresh(mark), 0, 0, 0, 0, 0) }

  function Admit(s: Sys, mark: Option<nat>): Sys {
    var c := s.nextConnId;
    s.(conns := s.conns[c := FreshRec(NextLoop(s), mark)],
       nextConnId := c + 1, next := NextCursor(s), connections := s.connections + {c})
  }

  // TcpServer::newConnection
  function NewConnection(s: Sys, mark: Option<nat>): Sys
    requires NextLoop(s) < |s.queues|
  {
    var c, l, s1 := s.nextConnId, NextLoop(s), Admit(s, mark);
    if l == 0 then EstablishConn(s1, c) else Push(s1, l, EstablishT(c))
  }

  function Execute(s: Sys, t: Task, w: WriteResult): (s': Sys)
    requires Known(s, t.c) && (t.SendT? ==> Possible(w, |t.data|))
    ensures s'.conns.Keys == s.conns.Keys
  {
    match t
    case EstablishT(c) => EstablishConn(s, c)
    case RemoveT(c) => EraseConn(s, c)
    case DestroyT(c) => DestroyConn(s, c)
    case ForceCloseT(c) => if Open(s.conns[c].conn) then CloseConn(s, c) else s
    case ShutdownT(c) => PutConn(s, c, ShutdownInLoop(s.conns[c].conn))
    case SendT(c, data, _) => PutConn(s, c, SendInLoop(s.conns[c].conn, data, w))
    case StartReadT(c) => PutConn(s, c, Connection.StartRead(s.conns[c].conn))
    case StopReadT(c) => PutConn(s, c, Connection.StopRead(s.conns[c].conn))
  }

  predicate ExecuteAsserts(s: Sys, t: Task)
    requires Known(s, t.c)
  {
    match t
    case EstablishT(c) => EstablishAsserts(s, c)
    case RemoveT(c) => EraseAsserts(s, c)
    case DestroyT(c) => DestroyAsserts(s, c)
    case ForceCloseT(c) => Open(s.conns[c].conn) ==> CloseAsserts(s, c)
    case _ => ChannelOk(s.conns[t.c].conn)
  }

  // Channel::handleEvent: close, (error), read, write, in this order.
  predicate HupCloses(rev: Revents) { rev.hup && !rev.in_ }

  predicate ReadCloses(rev: Revents, rd: ReadResult) { (rev.in_ || rev.pri || rev.rdhup) && rd == Eof }

  function HandleHup(s: Sys, c: nat, rev: Revents): (s': Sys)
    requires Known(s, c)
    ensures Known(s', c) && s'.conns[c].conn.out == s.conns[c].conn.out
    ensures s'.conns.Keys == s.conns.Keys
  {
    if HupCloses(rev) then CloseConn(s, c) else s
  }

  function HandleRead(s: Sys, c: nat, rev: Revents, rd: ReadResult): (s': Sys)
    requires Known(s, c)
    ensures Known(s', c) && s'.conns[c].conn.out == s.conns[c].conn.out
    ensures s'.conns.Keys == s.conns.Keys
  {
    if ReadCloses(rev, rd) then CloseConn(s, c) else s
  }

  function HandleOut(s: Sys, c: nat, rev: Revents, w: WriteResult): (s': Sys)
    requires Known(s, c) && Possible(w, |s.conns[c].conn.out|)
    ensures s'.conns.Keys == s.conns.Keys
  {
    if rev.out then PutConn(s, c, HandleWrite(s.conns[c].conn, w)) else s
  }

  function HandleEvent(s: Sys, c: nat, rev: Revents, rd: ReadResult, w: WriteResult): (s': Sys)
    requires Known(s, c) && Possible(w, |s.conns[c].conn.out|)
    ensures s'.conns.Keys == s.conns.Keys
  {
    HandleOut(HandleRead(HandleHup(s, c, rev), c, rev, rd), c, rev, w)
  }

  predicate HandleEventAsserts(s: Sys, c: nat, rev: Revents, rd: ReadResult)
    requires Known(s, c)
  {
    && (HupCloses(rev) ==> CloseAsserts(s, c))
    && (ReadCloses(rev, rd) ==> CloseAsserts(HandleHup(s, c, rev), c))
    && (rev.out ==> ChannelOk(HandleRead(HandleHup(s, c, rev), c, rev, rd).conns[c].conn))
  }

  // TcpConnection::send, on the loop thread, or the test of another thread
  function UserSend(s: Sys, c: nat, data: seq<Byte>, w: WriteResult, caller: Option<nat>): (s': Sys)
    requires Known(s, c) && Possible(w, |data|)
    ensures s'.conns.Keys == s.conns.Keys
  {
    var r := s.conns[c];
    if r.conn.state != Connected then s
    else if caller.Some? then Launch(s, caller.value, SendT(c, data, caller.value))
    else PutConn(s, c, SendInLoop(r.conn, data, w))
  }

  function Disconnect(k: Conn): Conn { k.(state := Disconnecting) }

  function UserShutdown(s: Sys, c: nat, caller: Option<nat>): (s': Sys)
    requires Known(s, c)
    ensures s'.conns.Keys == s.conns.Keys
  {
    var r := s.conns[c];
    if r.conn.state != Connected then s
    else if caller.Some? then Launch(PutConn(s, c, Disconnect(r.conn)), caller.value, ShutdownT(c))
    else PutConn(s, c, ShutdownInLoop(Disconnect(r.conn)))
  }

  function UserForceClose(s: Sys, c: nat, caller: Option<nat>): (s': Sys)
    requires Known(s, c)
    ensures s'.conns.Keys == s.conns.Keys
  {
    var r := s.conns[c];
    if !Open(r.conn) then s
    else if caller.Some? then Launch(PutConn(s, c, Disconnect(r.conn)), caller.value, ForceCloseT(c))
    else Push(PutConn(s, c, Disconnect(r.conn)), r.loop, ForceCloseT(c))
  }

  function LandPush(s: Sys, thread: nat): (s': Sys)
    requires thread in s.inflight && Known(s, s.inflight[thread].c)
    ensures s'.conns.Keys == s.conns.Keys
  {
    var t := s.inflight[thread];
    Push(Land(s, thread), s.conns[t.c].loop, t)
  }

  // startRead and stopRead, run on the loop thread or queued by another one
  function UserRead(s: Sys, t: Task, local: bool): (s': Sys)
    requires Known(s, t.c) && (t.StartReadT? || t.StopReadT?)
    ensures s'.conns.Keys == s.conns.Keys
  {
    if local then Execute(s, t, WouldBlock) else Push(s, s.conns[t.c].loop, t)
  }

  // The thread of loop l is not inside ~TcpServer.
  predicate Free(s: Sys, l: nat) { l < |s.queues| && (l == 0 ==> s.alive || s.connections == {}) }

  // Users get a connection from its callbacks, that is, once it was established.
  predicate Given(s: Sys, c: nat) { Known(s, c) && s.conns[c].established > 0 }

  predicate CanCall(s: Sys, c: nat, caller: Option<nat>) {
    Known(s, c) && if caller.Some? then caller.value !in s.inflight else Free(s, s.conns[c].loop)
  }

  // A channel can be handled while the kernel watches it, or because the same poll collected
  // it before a callback of another channel stopped its reading.
  predicate Reportable(k: Conn) { k.index == Added || Open(k) }

  // What the environment may do: the kernel never writes more than it was given.
  predicate Allowed(s: Sys, e: Event) {
    match e
    case Accept(_) => s.alive && NextLoop(s) < |s.queues|
    case RunTask(l, w) =>
      && Free(s, l) && s.queues[l] != []
      && var t := s.queues[l][0]; Known(s, t.c) && (t.SendT? ==> Possible(w, |t.data|))
    case Report(c, rev, rd, w) =>
      && Known(s, c) && Free(s, s.conns[c].loop)
      && Reportable(s.conns[c].conn) && Possible(w, |s.conns[c].conn.out|)
    case Send(c, data, w, caller) => CanCall(s, c, caller) && Possible(w, |data|)
    case Shutdown(c, caller) => CanCall(s, c, caller)
    case ForceClose(c, caller) => CanCall(s, c, caller)
    case PushBy(t) => t in s.inflight && Known(s, s.inflight[t].c)
    case StartRead(c, local) => Given(s, c) && (local ==> Free(s, s.conns[c].loop))
    case StopRead(c, local) => Given(s, c) && (local ==> Free(s, s.conns[c].loop))
    case Destruct => s.alive
    case Drop(c) => !s.alive && c in s.connections && Known(s, c)
  }

  function Step(s: Sys, e: Event): Sys
    requires Allowed(s, e)
  {
    match e
    case Accept(mark) => NewConnection(s, mark)
    case RunTask(l, w) => Execute(Pop(s, l), s.queues[l][0], w)
    case Report(c, rev, rd, w) => HandleEvent(s, c, rev, rd, w)
    case Send(c, data, w, caller) => UserSend(s, c, data, w, caller)
    case Shutdown(c, caller) => UserShutdown(s, c, caller)
    case ForceClose(c, caller) => UserForceClose(s, c, caller)
    case PushBy(t) => LandPush(s, t)
    case StartRead(c, local) => UserRead(s, StartReadT(c), local)
    case StopRead(c, local) => UserRead(s, StopReadT(c), local)
    case Destruct => s.(alive := false)
    case Drop(c) => DropConn(s, c)
  }

  // Every assertion the step executes holds.
  predicate Asserts(s: Sys, e: Event)
    requires Allowed(s, e)
  {
    match e
    case Accept(mark) => NextLoop(s) == 0 ==> EstablishAsserts(Admit(s, mark), s.nextConnId)
    case RunTask(l, _) => ExecuteAsserts(Pop(s, l), s.queues[l][0])
    case Report(c, rev, rd, _) => HandleEventAsserts(s, c, rev, rd)
    case Send(c, _, _, caller) => caller.None? ==> ChannelOk(s.conns[c].conn)
    case StartRead(c, local) => local ==> ChannelOk(s.conns[c].conn)
    case StopRead(c, local) => local ==> ChannelOk(s.conns[c].conn)
    case Drop(c) => DropAsserts(s, c)
    case _ => true
  }

  // --- Runs: up to the first failed assertion -----------------------------------------

  predicate Legal(s: Sys, e: Event) { Allowed(s, e) && Asserts(s, e) }

  predicate LegalRun(s: Sys, es: seq<Event>)
    decreases |es|
  {
    es == [] || (Legal(s, es[0]) && LegalRun(Step(s, es[0]), es[1..]))
  }

  function After(s: Sys, es: seq<Event>): Sys
    requires LegalRun(s, es)
    decreases |es|
  {
    if es == [] then s else After(Step(s, es[0]), es[1..])
  }

  // Some assertion fails when the environment does es.
  predicate FailsIn(s: Sys, es: seq<Event>)
    decreases |es|
  {
    es != [] && Allowed(s, es[0]) && (!Asserts(s, es[0]) || FailsIn(Step(s, es[0]), es[1..]))
  }

  // The one report the dispatch order cannot take: HUP without IN closes first, and the
  // read that PRI or RDHUP then asks for meets end of file and closes again.
  predicate ClosesTwice(rev: Revents, rd: ReadResult) {
    rev.hup && !rev.in_ && (rev.pri || rev.rdhup) && rd == Eof
  }

  predicate SwitchesRead(e: Event) { e.StartRead? || e.StopRead? }

  // Neither a use of startRead or stopRead, nor ~TcpServer, nor that one report.
  predicate Calm(e: Event) {
    !SwitchesRead(e) && !e.Destruct? && !(e.Report? && ClosesTwice(e.rev, e.rd))
  }

  // --- Invariant -----------------------------------------------------------------

  function Count(s: Sys, l: nat, t: Task): nat
    requires l < |s.queues|
  {
    multiset(s.queues[l])[t]
  }

  // All the system holds about one connection's life: its record, whether the server
  // lives and its map has it, and the establish, remove and destroy tasks in flight.
  datatype Life = Life(r: Rec, alive: bool, inMap: bool, establish: int, remove: int, destroy: int)

  function LifeOf(s: Sys, c: nat): Life
    requires Known(s, c)
  {
    var r := s.conns[c];
    Life(r, s.alive, c in s.connections, Count(s, r.loop, EstablishT(c)),
         Count(s, 0, RemoveT(c)), Count(s, r.loop, DestroyT(c)))
  }

  predicate Living(r: Rec) { r.established == 1 && r.closed == 0 && r.destroyed == 0 }

  // Every task in flight is accounted for by the histories, and state, mask and poller
  // index follow from them.
  predicate LifeOk(v: Life) {
    var r := v.r;
    && r.erased <= r.closed <= r.established <= 1
    && r.destroyed <= r.erased + r.dropped <= 1
    && (v.alive ==> r.dropped == 0)
    && (r.loop == 0 ==> r.established == 1 && r.closed == r.erased)
    && v.establish == 1 - r.established
    && v.remove == r.closed - r.erased
    && v.destroy == r.erased + r.dropped - r.destroyed
    && (v.inMap <==> r.erased + r.dropped == 0)
    && ChannelOk(r.conn)
    && (r.established == 0 ==> r.destroyed == 0 && Unborn(r.conn))
    && (Living(r) ==> Open(r.conn) && Tracks(r.conn))
    && (r.established == 1 && r.destroyed == 0 ==> r.conn.index != New)
    && (r.closed + r.destroyed > 0 ==> r.conn.state == Disconnected && !r.conn.writing)
  }

  // What holds besides until startRead or stopRead is used.
  predicate QuietLife(v: Life) {
    var r := v.r;
    && (Living(r) ==> r.conn.reading)
    && (r.closed == 1 && r.destroyed == 0 ==> !r.conn.reading && r.conn.index == Deleted)
    && (r.destroyed == 1 ==> !r.conn.reading && r.conn.index == New)
  }

  predicate UserTask(t: Task) { t.SendT? || t.ShutdownT? || t.ForceCloseT? || t.StartReadT? || t.StopReadT? }

  predicate Placed(s: Sys, l: nat, t: Task) {
    && Known(s, t.c)
    && l == (if t.RemoveT? then 0 else s.conns[t.c].loop)
    && (UserTask(t) ==> s.conns[t.c].established > 0)
  }

  predicate Flying(s: Sys, t: Task) {
    Given(s, t.c) && (t.SendT? || t.ShutdownT? || t.ForceCloseT?)
  }

  // The shape of the system: tasks sit in the queue of the loop they belong to,
  // and users reach a connection only after it was established.
  ghost predicate WellFormed(s: Sys) {
    && |s.queues| == s.n + 1
    && NextLoop(s) <= s.n && 1 <= s.nextConnId
    && (forall c :: c in s.conns <==> 1 <= c < s.nextConnId)
    && (forall c :: c in s.conns ==> Known(s, c))
    && s.connections <= s.conns.Keys
    && (forall l, i :: 0 <= l < |s.queues| && 0 <= i < |s.queues[l]| ==> Placed(s, l, s.queues[l][i]))
    && (forall t :: t in s.inflight ==> Flying(s, s.inflight[t]))
  }

  ghost predicate Inv(s: Sys) {
    WellFormed(s) && forall c :: c in s.conns ==> LifeOk(LifeOf(s, c))
  }

  predicate SwitchTask(t: Task) { t.StartReadT? || t.StopReadT? }

  ghost predicate Quiet(s: Sys) {
    && Inv(s)
    && (forall c :: c in s.conns ==> QuietLife(LifeOf(s, c)))
    && (forall l, i :: 0 <= l < |s.queues| && 0 <= i < |s.queues[l]| ==> !SwitchTask(s.queues[l][i]))
  }
}
