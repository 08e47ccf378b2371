/** One step of the server system, seen by one connection: what it does to the
    connection's life, and that a step which passes its assertions keeps it in order. */
module LifeSteps {
  import opened Bytes
  import opened ChannelIndex
  import opened Connection
  import opened Server

  // --- The system moves one connection at a time -----------------------------------

  // First the shape of the system, then the life of a connection c.

  lemma PutWellFormed(s: Sys, d: nat, r: Rec)
    requires WellFormed(s) && d in s.conns && r.loop == s.conns[d].loop
    requires r.established >= s.conns[d].established
    ensures WellFormed(Put(s, d, r))
  {
    var s' := Put(s, d, r);
    forall l, i | 0 <= l < |s'.queues| && 0 <= i < |s'.queues[l]|
      ensures Placed(s', l, s'.queues[l][i])
    {
      assert Placed(s, l, s.queues[l][i]);
    }
    forall t | t in s'.inflight ensures Flying(s', s'.inflight[t]) {
      assert Flying(s, s.inflight[t]);
    }
  }

  lemma PutLife(s: Sys, d: nat, r: Rec, c: nat)
    requires Known(s, d) && Known(s, c) && r.loop == s.conns[d].loop
    ensures Known(Put(s, d, r), d) && Known(Put(s, d, r), c)
    ensures LifeOf(Put(s, d, r), c) == if c == d then LifeOf(s, c).(r := r) else LifeOf(s, c)
  {
  }

  lemma SameFlight(s: Sys, s': Sys)
    requires WellFormed(s) && s'.conns == s.conns && |s'.queues| == |s.queues|
    requires s'.inflight == s.inflight
    ensures forall t :: t in s'.inflight ==> Flying(s', s'.inflight[t])
  {
    forall t | t in s'.inflight ensures Flying(s', s'.inflight[t]) {
      assert Flying(s, s.inflight[t]);
    }
  }

  lemma SamePlaces(s: Sys, s': Sys)
    requires WellFormed(s) && s'.conns == s.conns && s'.queues == s.queues
    ensures forall l, i :: 0 <= l < |s'.queues| && 0 <= i < |s'.queues[l]| ==> Placed(s', l, s'.queues[l][i])
  {
    forall l, i | 0 <= l < |s'.queues| && 0 <= i < |s'.queues[l]| ensures Placed(s', l, s'.queues[l][i]) {
      assert Placed(s, l, s.queues[l][i]);
    }
  }

  // One more (k = 1) or one fewer (k = -1) task t in flight.
  function Shift(v: Life, c: nat, t: Task, k: int): Life {
    if t == EstablishT(c) then v.(establish := v.establish + k)
    else if t == RemoveT(c) then v.(remove := v.remove + k)
    else if t == DestroyT(c) then v.(destroy := v.destroy + k)
    else v
  }

  lemma PushWellFormed(s: Sys, l: nat, t: Task)
    requires WellFormed(s) && l < |s.queues| && Placed(s, l, t)
    ensures WellFormed(Push(s, l, t))
  {
    var s' := Push(s, l, t);
    forall k, i | 0 <= k < |s'.queues| && 0 <= i < |s'.queues[k]|
      ensures Placed(s', k, s'.queues[k][i])
    {
      if k == l && i == |s.queues[l]| {
        assert s'.queues[k][i] == t;
      } else {
        assert Placed(s, k, s.queues[k][i]);
      }
    }
    SameFlight(s, s');
  }

  lemma PushCount(s: Sys, l: nat, t: Task, l': nat, t': Task)
    requires l < |s.queues| && l' < |s.queues|
    ensures Count(Push(s, l, t), l', t') == Count(s, l', t') + One(l == l' && t == t')
  {
  }

  lemma PushCounts(s: Sys, l: nat, t: Task, c: nat)
    requires l < |s.queues| && Placed(s, l, t) && Known(s, c)
    ensures var s', k := Push(s, l, t), s.conns[c].loop;
            && Count(s', k, EstablishT(c)) == Count(s, k, EstablishT(c)) + One(t == EstablishT(c))
            && Count(s', 0, RemoveT(c)) == Count(s, 0, RemoveT(c)) + One(t == RemoveT(c))
            && Count(s', k, DestroyT(c)) == Count(s, k, DestroyT(c)) + One(t == DestroyT(c))
  {
    var k := s.conns[c].loop;
    PushCount(s, l, t, k, EstablishT(c));
    PushCount(s, l, t, 0, RemoveT(c));
    PushCount(s, l, t, k, DestroyT(c));
  }

  lemma PushLife(s: Sys, l: nat, t: Task, c: nat)
    requires l < |s.queues| && Placed(s, l, t) && Known(s, c)
    ensures Known(Push(s, l, t), c) && LifeOf(Push(s, l, t), c) == Shift(LifeOf(s, c), c, t, 1)
  {
    PushCounts(s, l, t, c);
    assert Push(s, l, t).conns == s.conns && Push(s, l, t).connections == s.connections;
  }

  lemma PopWellFormed(s: Sys, l: nat)
    requires WellFormed(s) && l < |s.queues| && s.queues[l] != []
    ensures WellFormed(Pop(s, l))
  {
    var s' := Pop(s, l);
    forall k, i | 0 <= k < |s'.queues| && 0 <= i < |s'.queues[k]|
      ensures Placed(s', k, s'.queues[k][i])
    {
      assert Placed(s, k, s.queues[k][i]);
      if k == l {
        assert Placed(s, k, s.queues[k][i + 1]);
      }
    }
    SameFlight(s, s');
  }

  lemma PopCount(s: Sys, l: nat, l': nat, t': Task)
    requires l < |s.queues| && s.queues[l] != [] && l' < |s.queues|
    ensures Count(Pop(s, l), l', t') == Count(s, l', t') - One(l == l' && s.queues[l][0] == t')
  {
    assert s.queues[l] == [s.queues[l][0]] + s.queues[l][1..];
  }

  lemma PopCounts(s: Sys, l: nat, c: nat)
    requires l < |s.queues| && s.queues[l] != [] && Placed(s, l, s.queues[l][0]) && Known(s, c)
    ensures var s', k, t := Pop(s, l), s.conns[c].loop, s.queues[l][0];
            && Count(s', k, EstablishT(c)) == Count(s, k, EstablishT(c)) - One(t == EstablishT(c))
            && Count(s', 0, RemoveT(c)) == Count(s, 0, RemoveT(c)) - One(t == RemoveT(c))
            && Count(s', k, DestroyT(c)) == Count(s, k, DestroyT(c)) - One(t == DestroyT(c))
  {
    var k := s.conns[c].loop;
    PopCount(s, l, k, EstablishT(c));
    PopCount(s, l, 0, RemoveT(c));
    PopCount(s, l, k, DestroyT(c));
  }

  lemma PopLife(s: Sys, l: nat, c: nat)
    requires l < |s.queues| && s.queues[l] != [] && Placed(s, l, s.queues[l][0]) && Known(s, c)
    ensures Known(Pop(s, l), c) && LifeOf(Pop(s, l), c) == Shift(LifeOf(s, c), c, s.queues[l][0], -1)
  {
    PopCounts(s, l, c);
    assert Pop(s, l).conns == s.conns && Pop(s, l).connections == s.connections;
  }

  lemma ForgetWellFormed(s: Sys, d: nat)
    requires WellFormed(s)
    ensures WellFormed(Forget(s, d))
  {
    SamePlaces(s, Forget(s, d));
    SameFlight(s, Forget(s, d));
  }

  lemma ForgetLife(s: Sys, d: nat, c: nat)
    requires Known(s, c)
    ensures Known(Forget(s, d), c)
    ensures LifeOf(Forget(s, d), c) == if c == d then LifeOf(s, c).(inMap := false) else LifeOf(s, c)
  {
  }

  lemma DieWellFormed(s: Sys)
    requires WellFormed(s)
    ensures WellFormed(s.(alive := false))
  {
    SamePlaces(s, s.(alive := false));
    SameFlight(s, s.(alive := false));
  }

  lemma LaunchFrame(s: Sys, thread: nat, t: Task, c: nat)
    requires WellFormed(s) && Flying(s, t) && c in s.conns
    ensures WellFormed(Launch(s, thread, t)) && LifeOf(Launch(s, thread, t), c) == LifeOf(s, c)
  {
    var s' := Launch(s, thread, t);
    SamePlaces(s, s');
    forall x | x in s'.inflight ensures Flying(s', s'.inflight[x]) {
      assert x != thread ==> Flying(s, s.inflight[x]);
    }
  }

  lemma LandFrame(s: Sys, thread: nat, c: nat)
    requires WellFormed(s) && c in s.conns
    ensures WellFormed(Land(s, thread)) && LifeOf(Land(s, thread), c) == LifeOf(s, c)
  {
    var s' := Land(s, thread);
    SamePlaces(s, s');
    forall x | x in s'.inflight ensures Flying(s', s'.inflight[x]) {
      assert Flying(s, s.inflight[x]);
    }
  }

  // --- What each operation does to the life of its connection -----------------------

  function EstablishL(v: Life): Life { v.(r := EstablishedRec(v.r)) }

  function EraseL(v: Life): Life {
    v.(r := ErasedRec(v.r), inMap := false, destroy := v.destroy + 1)
  }

  function CloseL(v: Life): Life {
    var v1 := v.(r := ClosedRec(v.r));
    if v.r.loop == 0 then EraseL(v1) else v1.(remove := v1.remove + 1)
  }

  function DestroyL(v: Life): Life { v.(r := DestroyedRec(v.r)) }

  function DropL(v: Life): Life {
    var v1 := v.(r := DroppedRec(v.r), inMap := false);
    if v.r.loop == 0 then DestroyL(v1) else v1.(destroy := v1.destroy + 1)
  }

  lemma EraseWellFormed(s: Sys, d: nat)
    requires WellFormed(s) && d in s.conns
    ensures WellFormed(EraseConn(s, d))
  {
    var r := s.conns[d];
    var s1 := Put(s, d, ErasedRec(r));
    PutWellFormed(s, d, ErasedRec(r));
    ForgetWellFormed(s1, d);
    PushWellFormed(Forget(s1, d), r.loop, DestroyT(d));
  }

  lemma EraseLifeOf(s: Sys, d: nat, c: nat)
    requires Known(s, d) && Known(s, c)
    ensures Known(EraseConn(s, d), c)
    ensures LifeOf(EraseConn(s, d), c) == if c == d then EraseL(LifeOf(s, c)) else LifeOf(s, c)
  {
    var r := s.conns[d];
    var s1 := Put(s, d, ErasedRec(r));
    PutLife(s, d, ErasedRec(r), c);
    ForgetLife(s1, d, c);
    PushLife(Forget(s1, d), r.loop, DestroyT(d), c);
  }

  lemma CloseWellFormed(s: Sys, d: nat)
    requires WellFormed(s) && d in s.conns
    ensures WellFormed(CloseConn(s, d))
  {
    var r := s.conns[d];
    var s1 := Put(s, d, ClosedRec(r));
    PutWellFormed(s, d, ClosedRec(r));
    if r.loop == 0 {
      EraseWellFormed(s1, d);
    } else {
      PushWellFormed(s1, 0, RemoveT(d));
    }
  }

  lemma CloseLifeOf(s: Sys, d: nat, c: nat)
    requires Known(s, d) && Known(s, c)
    ensures Known(CloseConn(s, d), c)
    ensures LifeOf(CloseConn(s, d), c) == if c == d then CloseL(LifeOf(s, c)) else LifeOf(s, c)
  {
    var r := s.conns[d];
    var s1 := Put(s, d, ClosedRec(r));
    PutLife(s, d, ClosedRec(r), c);
    if r.loop == 0 {
      EraseLifeOf(s1, d, c);
    } else {
      PushLife(s1, 0, RemoveT(d), c);
    }
  }

  lemma DropWellFormed(s: Sys, d: nat)
    requires WellFormed(s) && d in s.conns
    ensures WellFormed(DropConn(s, d))
  {
    var r := s.conns[d];
    var s1 := Put(s, d, DroppedRec(r));
    PutWellFormed(s, d, DroppedRec(r));
    ForgetWellFormed(s1, d);
    if r.loop == 0 {
      PutWellFormed(Forget(s1, d), d, DestroyedRec(DroppedRec(r)));
    } else {
      PushWellFormed(Forget(s1, d), r.loop, DestroyT(d));
    }
  }

  lemma DropLifeOf(s: Sys, d: nat, c: nat)
    requires Known(s, d) && Known(s, c)
    ensures Known(DropConn(s, d), c)
    ensures LifeOf(DropConn(s, d), c) == if c == d then DropL(LifeOf(s, c)) else LifeOf(s, c)
  {
    var r := s.conns[d];
    var s1 := Put(s, d, DroppedRec(r));
    PutLife(s, d, DroppedRec(r), c);
    ForgetLife(s1, d, c);
    if r.loop == 0 {
      PutLife(Forget(s1, d), d, DestroyedRec(DroppedRec(r)), c);
    } else {
      PushLife(Forget(s1, d), r.loop, DestroyT(d), c);
    }
  }

  // The three life-cycle tasks, each taken from the head of its queue.

  lemma RunEstablishLife(s: Sys, l: nat, d: nat, c: nat)
    requires AtHead(s, l, EstablishT(d)) && Known(s, d) && Known(s, c)
    ensures Known(EstablishConn(Pop(s, l), d), c)
    ensures LifeOf(EstablishConn(Pop(s, l), d), c) ==
              if c == d then EstablishL(Shift(LifeOf(s, d), d, EstablishT(d), -1)) else LifeOf(s, c)
  {
    PopLife(s, l, c);
    PutLife(Pop(s, l), d, EstablishedRec(s.conns[d]), c);
  }

  lemma RunRemoveLife(s: Sys, l: nat, d: nat, c: nat)
    requires AtHead(s, l, RemoveT(d)) && Known(s, d) && Known(s, c)
    ensures Known(EraseConn(Pop(s, l), d), c)
    ensures LifeOf(EraseConn(Pop(s, l), d), c) ==
              if c == d then EraseL(Shift(LifeOf(s, d), d, RemoveT(d), -1)) else LifeOf(s, c)
  {
    PopLife(s, l, c);
    EraseLifeOf(Pop(s, l), d, c);
  }

  lemma RunDestroyLife(s: Sys, l: nat, d: nat, c: nat)
    requires AtHead(s, l, DestroyT(d)) && Known(s, d) && Known(s, c)
    ensures Known(DestroyConn(Pop(s, l), d), c)
    ensures LifeOf(DestroyConn(Pop(s, l), d), c) ==
              if c == d then DestroyL(Shift(LifeOf(s, d), d, DestroyT(d), -1)) else LifeOf(s, c)
  {
    PopLife(s, l, c);
    PutLife(Pop(s, l), d, DestroyedRec(s.conns[d]), c);
  }

  predicate AtHead(s: Sys, l: nat, t: Task) {
    l < |s.queues| && s.queues[l] != [] && s.queues[l][0] == t && Placed(s, l, t)
  }

  // --- Facts about one life, without the system -------------------------------------

  // v' is a life again, and a quiet one if v was.
  predicate Fine(v: Life, v': Life) { LifeOk(v') && (QuietLife(v) ==> QuietLife(v')) }

  predicate CanDestroy(k: Conn) {
    (k.state == Connected || (k.state == Disconnected && Idle(k))) && k.index != New
  }

  lemma EstablishLife(v: Life, c: nat)
    requires LifeOk(v) && v.establish > 0
    ensures v.r.conn.state == Connecting && Fine(v, EstablishL(Shift(v, c, EstablishT(c), -1)))
  {
  }

  lemma EraseLife(v: Life, c: nat)
    requires LifeOk(v) && v.remove > 0
    ensures v.alive ==> v.inMap && Fine(v, EraseL(Shift(v, c, RemoveT(c), -1)))
  {
  }

  lemma DestroyLife(v: Life, c: nat)
    requires LifeOk(v) && v.destroy > 0
    ensures CanDestroy(v.r.conn) ==> Fine(v, DestroyL(Shift(v, c, DestroyT(c), -1)))
    ensures v.alive && QuietLife(v) ==> v.r.conn.state == Disconnected && CanDestroy(v.r.conn)
  {
  }

  lemma CloseLife(v: Life)
    requires LifeOk(v) && Open(v.r.conn) && v.alive
    ensures v.inMap && Fine(v, CloseL(v))
  {
  }

  lemma DropLife(v: Life)
    requires LifeOk(v) && !v.alive && v.inMap && (v.r.loop == 0 ==> CanDestroy(v.r.conn))
    ensures Fine(v, DropL(v))
  {
  }

  // A change of the Conn alone that leaves the life as it is.
  predicate SameLife(k: Conn, k': Conn) {
    && ChannelOk(k')
    && (Open(k) ==> Open(k') && Tracks(k') && k'.reading == k.reading)
    && (!Open(k) ==> k'.state == k.state && k'.reading == k.reading && k'.writing == k.writing && k'.index == k.index)
  }

  lemma WithConnLife(v: Life, k: Conn)
    requires LifeOk(v) && v.r.established > 0 && SameLife(v.r.conn, k)
    ensures Fine(v, v.(r := WithConn(v.r, k)))
  {
  }

  lemma OutputSameLife(v: Life, k: Conn)
    requires LifeOk(v) && v.r.established > 0 && OutputStep(v.r.conn, k)
    ensures SameLife(v.r.conn, k)
  {
  }

  // startRead and stopRead keep the account but not the quiet.
  lemma SwitchLife(v: Life, k: Conn)
    requires LifeOk(v) && v.r.established > 0
    requires k == Connection.StartRead(v.r.conn) || k == Connection.StopRead(v.r.conn)
    ensures LifeOk(v.(r := WithConn(v.r, k)))
  {
  }

  // --- One step, seen by one connection ----------------------------------------------

  ghost predicate Good(s: Sys, c: nat) {
    WellFormed(s) && c in s.conns && LifeOk(LifeOf(s, c))
  }

  ghost predicate StillQuiet(s: Sys, s': Sys, c: nat) {
    Good(s, c) && Good(s', c) && (QuietLife(LifeOf(s, c)) ==> QuietLife(LifeOf(s', c)))
  }

  lemma PutConnGood(s: Sys, d: nat, k: Conn, c: nat)
    requires Good(s, c) && Good(s, d) && s.conns[d].established > 0 && SameLife(s.conns[d].conn, k)
    ensures StillQuiet(s, PutConn(s, d, k), c)
  {
    PutWellFormed(s, d, WithConn(s.conns[d], k));
    PutLife(s, d, WithConn(s.conns[d], k), c);
    if c == d {
      WithConnLife(LifeOf(s, d), k);
    }
  }

  lemma SwitchGood(s: Sys, d: nat, k: Conn, c: nat)
    requires Good(s, c) && Good(s, d) && s.conns[d].established > 0
    requires k == Connection.StartRead(s.conns[d].conn) || k == Connection.StopRead(s.conns[d].conn)
    ensures Good(PutConn(s, d, k), c)
  {
    PutWellFormed(s, d, WithConn(s.conns[d], k));
    PutLife(s, d, WithConn(s.conns[d], k), c);
    if c == d {
      SwitchLife(LifeOf(s, d), k);
    }
  }

  lemma OutputGood(s: Sys, d: nat, k: Conn, c: nat)
    requires Good(s, c) && Good(s, d) && s.conns[d].established > 0 && OutputStep(s.conns[d].conn, k)
    ensures StillQuiet(s, PutConn(s, d, k), c)
  {
    OutputSameLife(LifeOf(s, d), k);
    PutConnGood(s, d, k, c);
  }

  lemma CloseGood(s: Sys, d: nat, c: nat)
    requires Good(s, c) && Good(s, d) && CloseAsserts(s, d)
    ensures StillQuiet(s, CloseConn(s, d), c)
  {
    CloseWellFormed(s, d);
    CloseLifeOf(s, d, c);
    CloseLife(LifeOf(s, d));
  }

  lemma PushGood(s: Sys, l: nat, t: Task, c: nat)
    requires Good(s, c) && l < |s.queues| && Placed(s, l, t) && UserTask(t)
    ensures StillQuiet(s, Push(s, l, t), c)
  {
    PushWellFormed(s, l, t);
    PushLife(s, l, t, c);
  }

  lemma PopGood(s: Sys, l: nat, c: nat)
    requires Good(s, c) && l < |s.queues| && s.queues[l] != []
    requires s.queues[l][0].c != c || UserTask(s.queues[l][0])
    ensures StillQuiet(s, Pop(s, l), c)
  {
    PopWellFormed(s, l);
    assert Placed(s, l, s.queues[l][0]);
    PopLife(s, l, c);
  }

  lemma Became(s: Sys, s': Sys, c: nat, v: Life)
    requires Good(s, c) && WellFormed(s') && c in s'.conns && LifeOf(s', c) == v && Fine(LifeOf(s, c), v)
    ensures StillQuiet(s, s', c)
  {
  }

  lemma HeadCounted(s: Sys, l: nat, t: Task)
    requires AtHead(s, l, t)
    ensures Count(s, l, t) > 0
  {
  }

  lemma RunEstablishGood(s: Sys, l: nat, d: nat, c: nat)
    requires Good(s, c) && Good(s, d) && AtHead(s, l, EstablishT(d))
    ensures EstablishAsserts(s, d) && StillQuiet(s, EstablishConn(Pop(s, l), d), c)
  {
    HeadCounted(s, l, EstablishT(d));
    EstablishLife(LifeOf(s, d), d);
    PopWellFormed(s, l);
    PutWellFormed(Pop(s, l), d, EstablishedRec(s.conns[d]));
    RunEstablishLife(s, l, d, c);
    Became(s, EstablishConn(Pop(s, l), d), c,
           if c == d then EstablishL(Shift(LifeOf(s, d), d, EstablishT(d), -1)) else LifeOf(s, c));
  }

  lemma RunRemoveGood(s: Sys, l: nat, d: nat, c: nat)
    requires Good(s, c) && Good(s, d) && AtHead(s, l, RemoveT(d)) && s.alive
    ensures EraseAsserts(s, d) && StillQuiet(s, EraseConn(Pop(s, l), d), c)
  {
    HeadCounted(s, l, RemoveT(d));
    EraseLife(LifeOf(s, d), d);
    PopWellFormed(s, l);
    EraseWellFormed(Pop(s, l), d);
    RunRemoveLife(s, l, d, c);
    Became(s, EraseConn(Pop(s, l), d), c,
           if c == d then EraseL(Shift(LifeOf(s, d), d, RemoveT(d), -1)) else LifeOf(s, c));
  }

  lemma RunDestroyGood(s: Sys, l: nat, d: nat, c: nat)
    requires Good(s, c) && Good(s, d) && AtHead(s, l, DestroyT(d)) && DestroyAsserts(s, d)
    ensures StillQuiet(s, DestroyConn(Pop(s, l), d), c)
  {
    HeadCounted(s, l, DestroyT(d));
    DestroyLife(LifeOf(s, d), d);
    PopWellFormed(s, l);
    PutWellFormed(Pop(s, l), d, DestroyedRec(s.conns[d]));
    RunDestroyLife(s, l, d, c);
    Became(s, DestroyConn(Pop(s, l), d), c,
           if c == d then DestroyL(Shift(LifeOf(s, d), d, DestroyT(d), -1)) else LifeOf(s, c));
  }

  lemma DropGood(s: Sys, d: nat, c: nat)
    requires Good(s, c) && Good(s, d) && !s.alive && d in s.connections && DropAsserts(s, d)
    ensures StillQuiet(s, DropConn(s, d), c)
  {
    DropLife(LifeOf(s, d));
    DropWellFormed(s, d);
    DropLifeOf(s, d, c);
  }

  // A task a user queued, taken out of its queue.
  lemma UserTaskGood(s: Sys, t: Task, w: WriteResult, c: nat)
    requires Good(s, c) && Good(s, t.c) && s.conns[t.c].established > 0 && UserTask(t)
    requires (t.SendT? ==> Possible(w, |t.data|)) && ExecuteAsserts(s, t)
    ensures Good(Execute(s, t, w), c)
    ensures !SwitchTask(t) ==> StillQuiet(s, Execute(s, t, w), c)
  {
    var d, k := t.c, s.conns[t.c].conn;
    match t
    case SendT(_, data, _) => SendIsOutputStep(k, data, w); OutputGood(s, d, SendInLoop(k, data, w), c);
    case ShutdownT(_) => OutputGood(s, d, ShutdownInLoop(k), c);
    case ForceCloseT(_) => if Open(k) { CloseGood(s, d, c); }
    case StartReadT(_) => SwitchGood(s, d, Connection.StartRead(k), c);
    case StopReadT(_) => SwitchGood(s, d, Connection.StopRead(k), c);
  }

  lemma RunUserTaskGood(s: Sys, l: nat, w: WriteResult, c: nat)
    requires Good(s, c) && l < |s.queues| && s.queues[l] != [] && UserTask(s.queues[l][0])
    requires Placed(s, l, s.queues[l][0]) && Good(s, s.queues[l][0].c) && Legal(s, RunTask(l, w))
    ensures Good(Step(s, RunTask(l, w)), c)
    ensures !SwitchTask(s.queues[l][0]) ==> StillQuiet(s, Step(s, RunTask(l, w)), c)
  {
    var t := s.queues[l][0];
    PopGood(s, l, c);
    PopGood(s, l, t.c);
    UserTaskGood(Pop(s, l), t, w, c);
  }

  lemma HupGood(s: Sys, d: nat, rev: Revents, c: nat)
    requires Good(s, c) && Good(s, d) && (HupCloses(rev) ==> CloseAsserts(s, d))
    ensures StillQuiet(s, HandleHup(s, d, rev), c)
  {
    if HupCloses(rev) {
      CloseGood(s, d, c);
    }
  }

  lemma ReadGood(s: Sys, d: nat, rev: Revents, rd: ReadResult, c: nat)
    requires Good(s, c) && Good(s, d) && (ReadCloses(rev, rd) ==> CloseAsserts(s, d))
    ensures StillQuiet(s, HandleRead(s, d, rev, rd), c)
  {
    if ReadCloses(rev, rd) {
      CloseGood(s, d, c);
    }
  }

  lemma OutGood(s: Sys, d: nat, rev: Revents, w: WriteResult, c: nat)
    requires Good(s, c) && Good(s, d) && s.conns[d].established > 0 && Possible(w, |s.conns[d].conn.out|)
    ensures StillQuiet(s, HandleOut(s, d, rev, w), c)
  {
    WriteIsOutputStep(s.conns[d].conn, w);
    OutputGood(s, d, HandleWrite(s.conns[d].conn, w), c);
  }

  lemma CloseStaysEstablished(s: Sys, d: nat)
    requires Known(s, d)
    ensures CloseConn(s, d).conns[d].established == s.conns[d].established
  {
  }

  lemma ReportGood(s: Sys, d: nat, rev: Revents, rd: ReadResult, w: WriteResult, c: nat)
    requires Good(s, c) && Good(s, d) && Legal(s, Report(d, rev, rd, w))
    ensures StillQuiet(s, HandleEvent(s, d, rev, rd, w), c)
  {
    ClosingGood(s, d, rev, rd, c);
    ClosingGood(s, d, rev, rd, d);
    OutGood(HandleRead(HandleHup(s, d, rev), d, rev, rd), d, rev, w, c);
  }

  // The two handlers that may close.
  lemma ClosingGood(s: Sys, d: nat, rev: Revents, rd: ReadResult, c: nat)
    requires Good(s, c) && Good(s, d) && HandleEventAsserts(s, d, rev, rd) && Reportable(s.conns[d].conn)
    ensures var s2 := HandleRead(HandleHup(s, d, rev), d, rev, rd);
            StillQuiet(s, s2, c) && s2.conns[d].established > 0
  {
    HupGood(s, d, rev, c);
    HupGood(s, d, rev, d);
    CloseStaysEstablished(s, d);
    var s1 := HandleHup(s, d, rev);
    ReadGood(s1, d, rev, rd, c);
    CloseStaysEstablished(s1, d);
  }

  lemma LaunchGood(s: Sys, thread: nat, t: Task, c: nat)
    requires Good(s, c) && Flying(s, t)
    ensures StillQuiet(s, Launch(s, thread, t), c)
  {
    LaunchFrame(s, thread, t, c);
  }

  lemma SendGood(s: Sys, e: Event, c: nat)
    requires Good(s, c) && e.Send? && Legal(s, e) && Good(s, e.c)
    ensures StillQuiet(s, Step(s, e), c)
  {
    var k := s.conns[e.c].conn;
    if k.state == Connected {
      if e.caller.Some? {
        LaunchGood(s, e.caller.value, SendT(e.c, e.data, e.caller.value), c);
      } else {
        SendIsOutputStep(k, e.data, e.w);
        OutputGood(s, e.c, SendInLoop(k, e.data, e.w), c);
      }
    }
  }

  lemma DisconnectGood(s: Sys, d: nat, c: nat)
    requires Good(s, c) && Good(s, d) && Open(s.conns[d].conn)
    ensures StillQuiet(s, PutConn(s, d, Disconnect(s.conns[d].conn)), c)
    ensures StillQuiet(s, PutConn(s, d, ShutdownInLoop(Disconnect(s.conns[d].conn))), c)
    ensures s.conns[d].established > 0
  {
    PutConnGood(s, d, Disconnect(s.conns[d].conn), c);
    PutConnGood(s, d, ShutdownInLoop(Disconnect(s.conns[d].conn)), c);
  }

  lemma ShutdownGood(s: Sys, e: Event, c: nat)
    requires Good(s, c) && e.Shutdown? && Legal(s, e) && Good(s, e.c)
    ensures StillQuiet(s, Step(s, e), c)
  {
    var k := s.conns[e.c].conn;
    if k.state == Connected {
      DisconnectGood(s, e.c, c);
      if e.caller.Some? {
        LaunchGood(PutConn(s, e.c, Disconnect(k)), e.caller.value, ShutdownT(e.c), c);
      }
    }
  }

  lemma ForceCloseGood(s: Sys, e: Event, c: nat)
    requires Good(s, c) && e.ForceClose? && Legal(s, e) && Good(s, e.c)
    ensures StillQuiet(s, Step(s, e), c)
  {
    assert Step(s, e) == UserForceClose(s, e.c, e.caller);
    if Open(s.conns[e.c].conn) {
      ForcedGood(s, e.c, e.caller, c);
    }
  }

  lemma ForcedGood(s: Sys, d: nat, caller: Option<nat>, c: nat)
    requires Good(s, c) && Good(s, d) && Open(s.conns[d].conn)
    ensures StillQuiet(s, UserForceClose(s, d, caller), c)
  {
    DisconnectGood(s, d, c);
    var s1 := PutConn(s, d, Disconnect(s.conns[d].conn));
    if caller.Some? {
      LaunchGood(s1, caller.value, ForceCloseT(d), c);
    } else {
      PushGood(s1, s1.conns[d].loop, ForceCloseT(d), c);
    }
  }

  lemma PushByGood(s: Sys, thread: nat, c: nat)
    requires Good(s, c) && thread in s.inflight
    ensures StillQuiet(s, LandPush(s, thread), c)
  {
    var t := s.inflight[thread];
    assert Flying(s, t);
    LandFrame(s, thread, c);
    PushGood(Land(s, thread), s.conns[t.c].loop, t, c);
  }

  lemma ReadSwitchGood(s: Sys, t: Task, local: bool, c: nat)
    requires Good(s, c) && Given(s, t.c) && Good(s, t.c) && SwitchTask(t)
    requires local ==> ChannelOk(s.conns[t.c].conn)
    ensures Good(UserRead(s, t, local), c)
  {
    if local {
      UserTaskGood(s, t, WouldBlock, c);
    } else {
      PushGood(s, s.conns[t.c].loop, t, c);
    }
  }

  lemma DestructGood(s: Sys, c: nat)
    requires Good(s, c)
    ensures StillQuiet(s, s.(alive := false), c)
  {
    DieWellFormed(s);
    assert LifeOf(s.(alive := false), c) == LifeOf(s, c).(alive := false);
  }

  lemma NoTasksYet(s: Sys, l: nat, t: Task)
    requires WellFormed(s) && l < |s.queues| && t.c !in s.conns
    ensures Count(s, l, t) == 0
  {
    forall i | 0 <= i < |s.queues[l]| ensures s.queues[l][i] != t {
      assert Placed(s, l, s.queues[l][i]);
    }
  }

  lemma AdmitWellFormed(s: Sys, mark: Option<nat>)
    requires WellFormed(s)
    ensures WellFormed(Admit(s, mark))
  {
    var s' := Admit(s, mark);
    forall l, i | 0 <= l < |s'.queues| && 0 <= i < |s'.queues[l]|
      ensures Placed(s', l, s'.queues[l][i])
    {
      assert Placed(s, l, s.queues[l][i]);
    }
    forall t | t in s'.inflight ensures Flying(s', s'.inflight[t]) {
      assert Flying(s, s.inflight[t]);
    }
  }

  lemma AdmitFrame(s: Sys, mark: Option<nat>, c: nat)
    requires WellFormed(s) && (c in s.conns || c == s.nextConnId)
    ensures WellFormed(Admit(s, mark))
    ensures c in s.conns ==> LifeOf(Admit(s, mark), c) == LifeOf(s, c)
    ensures c == s.nextConnId ==>
              LifeOf(Admit(s, mark), c) == Life(FreshRec(NextLoop(s), mark), s.alive, true, 0, 0, 0)
  {
    AdmitWellFormed(s, mark);
    if c == s.nextConnId {
      NoTasksYet(s, NextLoop(s), EstablishT(c));
      NoTasksYet(s, 0, RemoveT(c));
      NoTasksYet(s, NextLoop(s), DestroyT(c));
    }
  }

  // A new connection, established at once on loop 0, or with its establish task queued.
  lemma FreshLife(mark: Option<nat>, alive: bool)
    ensures var v := EstablishL(Life(FreshRec(0, mark), alive, true, 0, 0, 0)); LifeOk(v) && QuietLife(v)
  {
    var k := Establish(Fresh(mark));
    assert k.state == Connected && k.reading && !k.writing && k.index == Added && k.registered && k.wantsRead;
  }

  lemma QueuedLife(l: nat, mark: Option<nat>, alive: bool)
    requires l != 0
    ensures var v := Life(FreshRec(l, mark), alive, true, 1, 0, 0); LifeOk(v) && QuietLife(v)
  {
  }

  lemma AcceptOther(s: Sys, mark: Option<nat>, c: nat)
    requires Good(s, c)
    ensures StillQuiet(s, NewConnection(s, mark), c)
  {
    AdmitFrame(s, mark, c);
    OpenOther(Admit(s, mark), s.nextConnId, NextLoop(s), c);
  }

  // The second half of newConnection, for a connection that is not the new one.
  lemma OpenOther(s: Sys, d: nat, l: nat, c: nat)
    requires Good(s, c) && d in s.conns && d != c && l == s.conns[d].loop
    ensures StillQuiet(s, EstablishConn(s, d), c) && StillQuiet(s, Push(s, l, EstablishT(d)), c)
  {
    PutWellFormed(s, d, EstablishedRec(s.conns[d]));
    PutLife(s, d, EstablishedRec(s.conns[d]), c);
    Became(s, EstablishConn(s, d), c, LifeOf(s, c));
    PushWellFormed(s, l, EstablishT(d));
    PushLife(s, l, EstablishT(d), c);
    Became(s, Push(s, l, EstablishT(d)), c, LifeOf(s, c));
  }

  lemma AcceptNew(s: Sys, mark: Option<nat>)
    requires WellFormed(s)
    ensures var s', c := NewConnection(s, mark), s.nextConnId; Good(s', c) && QuietLife(LifeOf(s', c))
  {
    var d, l, s1 := s.nextConnId, NextLoop(s), Admit(s, mark);
    AdmitFrame(s, mark, d);
    if l == 0 {
      PutWellFormed(s1, d, EstablishedRec(s1.conns[d]));
      PutLife(s1, d, EstablishedRec(s1.conns[d]), d);
      FreshLife(mark, s.alive);
    } else {
      PushWellFormed(s1, l, EstablishT(d));
      PushLife(s1, l, EstablishT(d), d);
      QueuedLife(l, mark, s.alive);
    }
  }

  // --- Every step ----------------------------------------------------------------------

  // The step neither is nor runs a startRead or stopRead.
  predicate LeavesReading(s: Sys, e: Event)
    requires Allowed(s, e)
  {
    !SwitchesRead(e) && (e.RunTask? ==> !SwitchTask(s.queues[e.loop][0]))
  }

  // The step keeps c's life in order, and quiet unless it switches reading.
  ghost predicate StepFine(s: Sys, e: Event, c: nat) {
    && Allowed(s, e) && Good(Step(s, e), c)
    && (LeavesReading(s, e) ==> StillQuiet(s, Step(s, e), c))
  }

  lemma TaskGood(s: Sys, e: Event, c: nat)
    requires Good(s, c) && e.RunTask? && Legal(s, e) && Good(s, s.queues[e.loop][0].c)
    ensures StepFine(s, e, c)
  {
    var l, w, t := e.loop, e.w, s.queues[e.loop][0];
    assert Placed(s, l, t);
    match t
    case EstablishT(d) => RunEstablishGood(s, l, d, c);
    case RemoveT(d) => RunRemoveGood(s, l, d, c);
    case DestroyT(d) => RunDestroyGood(s, l, d, c);
    case _ => RunUserTaskGood(s, l, w, c);
  }

  lemma CallGood(s: Sys, e: Event, c: nat)
    requires Good(s, c) && Legal(s, e) && (e.Send? || e.Shutdown? || e.ForceClose? || SwitchesRead(e)) && Good(s, e.c)
    ensures StepFine(s, e, c)
  {
    match e
    case Send(_, _, _, _) => SendGood(s, e, c);
    case Shutdown(_, _) => ShutdownGood(s, e, c);
    case ForceClose(_, _) => ForceCloseGood(s, e, c);
    case StartRead(d, local) => ReadSwitchGood(s, StartReadT(d), local, c);
    case StopRead(d, local) => ReadSwitchGood(s, StopReadT(d), local, c);
  }

  lemma SystemGood(s: Sys, e: Event, c: nat)
    requires Good(s, c) && Legal(s, e) && (e.Accept? || e.PushBy? || e.Destruct?)
    ensures StepFine(s, e, c)
  {
    match e
    case Accept(mark) => AcceptOther(s, mark, c);
    case PushBy(t) => PushByGood(s, t, c);
    case Destruct => DestructGood(s, c);
  }

  lemma ConnGood(s: Sys, e: Event, c: nat)
    requires Good(s, c) && Legal(s, e) && (e.Report? || e.Drop?) && Good(s, e.c)
    ensures StepFine(s, e, c)
  {
    match e
    case Report(d, rev, rd, w) => ReportGood(s, d, rev, rd, w, c);
    case Drop(d) => DropGood(s, d, c);
  }

  // The connection a step is about.
  function ActsOn(s: Sys, e: Event): nat
    requires Allowed(s, e)
  {
    match e
    case Accept(_) => s.nextConnId
    case RunTask(l, _) => s.queues[l][0].c
    case PushBy(t) => s.inflight[t].c
    case Destruct => 0
    case _ => e.c
  }

  lemma StepGoodOn(s: Sys, e: Event, c: nat)
    requires Good(s, c) && Legal(s, e) && (e.Accept? || e.Destruct? || Good(s, ActsOn(s, e)))
    ensures StepFine(s, e, c)
  {
    if e.Accept? || e.PushBy? || e.Destruct? {
      SystemGood(s, e, c);
    } else if e.RunTask? {
      TaskGood(s, e, c);
    } else if e.Report? || e.Drop? {
      ConnGood(s, e, c);
    } else {
      CallGood(s, e, c);
    }
  }

  lemma ActsOnGood(s: Sys, e: Event)
    requires Inv(s) && Allowed(s, e) && !e.Accept? && !e.Destruct?
    ensures Good(s, ActsOn(s, e))
  {
    assert ActsOn(s, e) in s.conns;
  }

  // Any step that passes its assertions keeps every connection's life in order, and quiet
  // unless it switches reading.
  lemma StepGood(s: Sys, e: Event, c: nat)
    requires Inv(s) && Legal(s, e) && c in s.conns
    ensures StepFine(s, e, c)
  {
    assert Good(s, c);
    if !e.Accept? && !e.Destruct? {
      ActsOnGood(s, e);
    }
    StepGoodOn(s, e, c);
  }
}
