/** The way of a message from send() to sendInLoop: through the test of the caller, its
    flight to the queue, and the queue, for every caller and over every run. */
module Messages {
  import opened Bytes
  import opened Connection
  import opened Server
  import opened LifeSteps
  import opened Lifecycle

  // A message with its caller, None on the loop thread.
  datatype Msg = Msg(from: Option<nat>, data: seq<Byte>)

  function Just(m: Option<Msg>): seq<Msg> { if m.Some? then [m.value] else [] }

  // What a step lets pass the test of send() for c ...
  function Passes(s: Sys, e: Event, c: nat): Option<Msg> {
    if e.Send? && e.c == c && c in s.conns && s.conns[c].conn.state == Connected
    then Some(Msg(e.caller, e.data)) else None
  }

  // ... and what it hands to sendInLoop of c.
  function Hands(s: Sys, e: Event, c: nat): Option<Msg> {
    if e.Send? && e.caller.None? then Passes(s, e, c)
    else if e.RunTask? && e.loop < |s.queues| && s.queues[e.loop] != [] then
      var t := s.queues[e.loop][0];
      if t.SendT? && t.c == c then Some(Msg(Some(t.from), t.data)) else None
    else None
  }

  function Passed(s: Sys, es: seq<Event>, c: nat): seq<Msg>
    requires LegalRun(s, es)
    decreases |es|
  {
    if es == [] then [] else Just(Passes(s, es[0], c)) + Passed(Step(s, es[0]), es[1..], c)
  }

  function Handed(s: Sys, es: seq<Event>, c: nat): seq<Msg>
    requires LegalRun(s, es)
    decreases |es|
  {
    if es == [] then [] else Just(Hands(s, es[0], c)) + Handed(Step(s, es[0]), es[1..], c)
  }

  // The messages of one caller.
  function By(who: Option<nat>, ms: seq<Msg>): seq<Msg> {
    if ms == [] then [] else (if ms[0].from == who then [ms[0]] else []) + By(who, ms[1..])
  }

  lemma {:induction false} ByOf(who: Option<nat>, a: seq<Msg>, b: seq<Msg>)
    ensures By(who, a + b) == By(who, a) + By(who, b)
  {
    if a == [] {
      assert a + b == b;
    } else {
      var c := a + b;
      assert c[0] == a[0] && c[1..] == a[1..] + b;
      ByOf(who, a[1..], b);
      Assoc(if a[0].from == who then [a[0]] else [], By(who, a[1..]), By(who, b));
    }
  }

  function Message(t: Task, c: nat): Option<Msg> {
    if t.SendT? && t.c == c then Some(Msg(Some(t.from), t.data)) else None
  }

  // The messages to c in a queue, in order.
  function Queued(q: seq<Task>, c: nat): seq<Msg> {
    if q == [] then [] else Just(Message(q[0], c)) + Queued(q[1..], c)
  }

  lemma {:induction false} QueuedOf(a: seq<Task>, b: seq<Task>, c: nat)
    ensures Queued(a + b, c) == Queued(a, c) + Queued(b, c)
  {
    if a == [] {
      assert a + b == b;
    } else {
      var q := a + b;
      assert q[0] == a[0] && q[1..] == a[1..] + b;
      QueuedOf(a[1..], b, c);
      Assoc(Just(Message(a[0], c)), Queued(a[1..], c), Queued(b, c));
    }
  }

  lemma {:induction false} NoneQueued(q: seq<Task>, c: nat)
    requires forall i :: 0 <= i < |q| ==> !(q[i].SendT? && q[i].c == c)
    ensures Queued(q, c) == []
  {
    if q != [] {
      NoneQueued(q[1..], c);
    }
  }

  lemma AddsNone(q: seq<Task>, q': seq<Task>, c: nat)
    requires Adds(q, q')
    ensures Queued(q', c) == Queued(q, c)
  {
    var more := q'[|q|..];
    assert q' == q + more;
    QueuedOf(q, more, c);
    NoneQueued(more, c);
  }

  // The message of caller who that passed its test and is not queued yet.
  function InFlight(s: Sys, c: nat, who: Option<nat>): seq<Msg> {
    if who.Some? && who.value in s.inflight then Just(Message(s.inflight[who.value], c)) else []
  }

  function QueueOf(s: Sys, c: nat): seq<Task> { if Known(s, c) then s.queues[s.conns[c].loop] else [] }

  // What of caller who is on its way to sendInLoop of c.
  function Transit(s: Sys, c: nat, who: Option<nat>): seq<Msg> {
    By(who, Queued(QueueOf(s, c), c)) + InFlight(s, c, who)
  }

  // A call in flight carries the name of its caller.
  ghost predicate Tagged(s: Sys) {
    forall t :: t in s.inflight && s.inflight[t].SendT? ==> s.inflight[t].from == t
  }

  // --- One step -----------------------------------------------------------------------------

  // What passes the test joins the end, what is handed over leaves the front.
  predicate Flows(s: Sys, e: Event, s': Sys, c: nat, who: Option<nat>) {
    Transit(s, c, who) + By(who, Just(Passes(s, e, c))) == By(who, Just(Hands(s, e, c))) + Transit(s', c, who)
  }

  lemma HeadFlows(s: Sys, l: nat, c: nat, who: Option<nat>)
    requires Known(s, c) && l < |s.queues| && s.queues[l] != [] && Placed(s, l, s.queues[l][0])
    ensures Known(Pop(s, l), c)
    ensures Transit(s, c, who) == By(who, Just(Message(s.queues[l][0], c))) + Transit(Pop(s, l), c, who)
  {
    var t, q := s.queues[l][0], QueueOf(s, c);
    if l == s.conns[c].loop {
      ByOf(who, Just(Message(t, c)), Queued(q[1..], c));
      assert QueueOf(Pop(s, l), c) == q[1..];
      Assoc(By(who, Just(Message(t, c))), By(who, Queued(q[1..], c)), InFlight(s, c, who));
    } else {
      assert QueueOf(Pop(s, l), c) == q && Message(t, c).None?;
      assert By(who, []) == [];
    }
  }

  lemma TaskFlies(s: Sys, t: Task, w: WriteResult)
    requires Known(s, t.c) && (t.SendT? ==> Possible(w, |t.data|))
    ensures Execute(s, t, w).inflight == s.inflight
  {
  }

  lemma TaskKeepsTransit(s: Sys, t: Task, w: WriteResult, c: nat, who: Option<nat>)
    requires Known(s, t.c) && Known(s, c) && (t.SendT? ==> Possible(w, |t.data|))
    ensures Transit(Execute(s, t, w), c, who) == Transit(s, c, who)
  {
    var s' := Execute(s, t, w);
    TaskSame(s, t, w);
    TaskExtends(s, t, w, s.conns[c].loop);
    TaskFlies(s, t, w);
    AddsNone(QueueOf(s, c), QueueOf(s', c), c);
  }

  lemma RunFlows(s: Sys, e: Event, c: nat, who: Option<nat>)
    requires Inv(s) && e.RunTask? && Allowed(s, e) && c in s.conns
    ensures Flows(s, e, Step(s, e), c, who)
  {
    var l, t := e.loop, s.queues[e.loop][0];
    assert Placed(s, l, t);
    HeadFlows(s, l, c, who);
    TaskKeepsTransit(Pop(s, l), t, e.w, c, who);
    RunHands(s, e, c, who);
  }

  lemma RunHands(s: Sys, e: Event, c: nat, who: Option<nat>)
    requires e.RunTask? && Allowed(s, e)
    ensures Hands(s, e, c) == Message(s.queues[e.loop][0], c)
    ensures By(who, Just(Passes(s, e, c))) == []
    ensures Transit(s, c, who) + [] == Transit(s, c, who)
    ensures Step(s, e) == Execute(Pop(s, e.loop), s.queues[e.loop][0], e.w)
  {
  }

  lemma CloseKeepsTransit(s: Sys, d: nat, c: nat, who: Option<nat>)
    requires Known(s, d) && Known(s, c)
    ensures Known(CloseConn(s, d), c) && Transit(CloseConn(s, d), c, who) == Transit(s, c, who)
  {
    CloseSame(s, d);
    CloseExtends(s, d, s.conns[c].loop);
    assert CloseConn(s, d).inflight == s.inflight;
    AddsNone(QueueOf(s, c), QueueOf(CloseConn(s, d), c), c);
  }

  lemma ReportFlows(s: Sys, e: Event, c: nat, who: Option<nat>)
    requires e.Report? && Allowed(s, e) && Known(s, c)
    ensures Flows(s, e, Step(s, e), c, who)
  {
    var s1 := HandleHup(s, e.c, e.rev);
    CloseKeepsTransit(s, e.c, c, who);
    CloseKeepsTransit(s1, e.c, c, who);
    OutKeepsTransit(HandleRead(s1, e.c, e.rev, e.rd), e.c, e.rev, e.w, c, who);
    QuietlyFlows(s, e, c, who);
  }

  lemma OutKeepsTransit(s: Sys, d: nat, rev: Revents, w: WriteResult, c: nat, who: Option<nat>)
    requires Known(s, d) && Known(s, c) && Possible(w, |s.conns[d].conn.out|)
    ensures Transit(HandleOut(s, d, rev, w), c, who) == Transit(s, c, who)
  {
    var s' := HandleOut(s, d, rev, w);
    assert s'.queues == s.queues && s'.inflight == s.inflight && QueueOf(s', c) == QueueOf(s, c);
  }

  // A step about no message.
  lemma QuietlyFlows(s: Sys, e: Event, c: nat, who: Option<nat>)
    requires Allowed(s, e) && !e.Send? && !e.RunTask? && Transit(Step(s, e), c, who) == Transit(s, c, who)
    ensures Flows(s, e, Step(s, e), c, who)
  {
    assert By(who, []) == [];
    assert Transit(s, c, who) + [] == [] + Transit(s, c, who);
  }

  lemma SendFlows(s: Sys, e: Event, c: nat, who: Option<nat>)
    requires e.Send? && Allowed(s, e) && Known(s, c)
    ensures Flows(s, e, Step(s, e), c, who)
  {
    var s' := Step(s, e);
    CallSame(s, e);
    CallExtends(s, e, s.conns[c].loop);
    assert s'.queues == s.queues;
    assert By(who, []) == [];
    if s.conns[e.c].conn.state == Connected && e.caller.Some? {
      assert s' == Launch(s, e.caller.value, SendT(e.c, e.data, e.caller.value));
      assert InFlight(s, c, e.caller) == [];
      if who == e.caller {
        assert InFlight(s', c, who) == Just(Passes(s, e, c)) == By(who, Just(Passes(s, e, c)));
        assert Transit(s, c, who) == By(who, Queued(QueueOf(s, c), c));
      } else {
        assert InFlight(s', c, who) == InFlight(s, c, who) && By(who, Just(Passes(s, e, c))) == [];
      }
    } else {
      LocalFlows(s, e, c, who);
    }
  }

  // On the loop thread a message is handed over at once; nothing of that caller is under way.
  lemma LocalFlows(s: Sys, e: Event, c: nat, who: Option<nat>)
    requires e.Send? && Allowed(s, e) && Known(s, c)
    requires s.conns[e.c].conn.state != Connected || e.caller.None?
    ensures Flows(s, e, Step(s, e), c, who)
  {
    var s' := Step(s, e);
    CallSame(s, e);
    assert s'.queues == s.queues && s'.inflight == s.inflight;
    assert Transit(s', c, who) == Transit(s, c, who);
    assert Passes(s, e, c) == Hands(s, e, c);
    assert By(who, []) == [];
    if who.None? {
      NoneByLoop(QueueOf(s, c), c);
    } else {
      assert By(who, Just(Passes(s, e, c))) == [];
    }
  }

  lemma {:induction false} NoneByLoop(q: seq<Task>, c: nat)
    ensures By(None, Queued(q, c)) == []
  {
    if q != [] {
      NoneByLoop(q[1..], c);
      ByOf(None, Just(Message(q[0], c)), Queued(q[1..], c));
    }
  }

  lemma EndFlows(s: Sys, e: Event, c: nat, who: Option<nat>)
    requires (e.Shutdown? || e.ForceClose?) && Allowed(s, e) && Known(s, c)
    ensures Flows(s, e, Step(s, e), c, who)
  {
    CallSame(s, e);
    CallExtends(s, e, s.conns[c].loop);
    AddsNone(QueueOf(s, c), QueueOf(Step(s, e), c), c);
    EndFlies(s, e, c, who);
    QuietlyFlows(s, e, c, who);
  }

  // Neither a shutdown nor a forced close carries a message.
  lemma EndFlies(s: Sys, e: Event, c: nat, who: Option<nat>)
    requires (e.Shutdown? || e.ForceClose?) && Allowed(s, e)
    ensures InFlight(Step(s, e), c, who) == InFlight(s, c, who)
  {
  }

  // A task pushed on the loop of its connection.
  lemma PushTransit(s: Sys, l: nat, t: Task, c: nat, who: Option<nat>)
    requires Known(s, c) && l < |s.queues| && (t.c == c ==> l == s.conns[c].loop)
    ensures Transit(Push(s, l, t), c, who) ==
              By(who, Queued(QueueOf(s, c), c)) + (By(who, Just(Message(t, c))) + InFlight(s, c, who))
  {
    var q := QueueOf(s, c);
    if l == s.conns[c].loop {
      assert QueueOf(Push(s, l, t), c) == q + [t];
      QueuedOf(q, [t], c);
      assert Queued([t], c) == Just(Message(t, c)) by {
        assert [t][1..] == [] && Just(Message(t, c)) + [] == Just(Message(t, c));
      }
      ByOf(who, Queued(q, c), Just(Message(t, c)));
      Assoc(By(who, Queued(q, c)), By(who, Just(Message(t, c))), InFlight(s, c, who));
    } else {
      assert QueueOf(Push(s, l, t), c) == q;
      assert By(who, []) == [] && [] + InFlight(s, c, who) == InFlight(s, c, who);
    }
  }

  // The push moves a message from its flight to the end of the queue.
  lemma PushFlows(s: Sys, e: Event, c: nat, who: Option<nat>)
    requires e.PushBy? && Allowed(s, e) && Known(s, c) && Tagged(s)
    ensures Flows(s, e, Step(s, e), c, who)
  {
    var t, s1 := s.inflight[e.thread], Land(s, e.thread);
    PushTransit(s1, s.conns[t.c].loop, t, c, who);
    LandsAt(s, e.thread, c, who);
    assert QueueOf(s1, c) == QueueOf(s, c);
    QuietlyFlows(s, e, c, who);
  }

  lemma LandsAt(s: Sys, thread: nat, c: nat, who: Option<nat>)
    requires thread in s.inflight && Tagged(s)
    ensures By(who, Just(Message(s.inflight[thread], c))) + InFlight(Land(s, thread), c, who) == InFlight(s, c, who)
  {
  }

  lemma ReadFlows(s: Sys, e: Event, c: nat, who: Option<nat>)
    requires SwitchesRead(e) && Allowed(s, e) && Known(s, c)
    ensures Flows(s, e, Step(s, e), c, who)
  {
    var t := if e.StartRead? then StartReadT(e.c) else StopReadT(e.c);
    var s' := Step(s, e);
    assert s' == UserRead(s, t, e.local);
    if e.local {
      TaskKeepsTransit(s, t, WouldBlock, c, who);
    } else {
      PushKeepsTransit(s, s.conns[e.c].loop, t, c, who);
    }
    QuietlyFlows(s, e, c, who);
  }

  lemma PushKeepsTransit(s: Sys, l: nat, t: Task, c: nat, who: Option<nat>)
    requires Known(s, c) && l < |s.queues| && !t.SendT?
    ensures Transit(Push(s, l, t), c, who) == Transit(s, c, who)
  {
    var q := QueueOf(s, c);
    if l == s.conns[c].loop {
      assert QueueOf(Push(s, l, t), c) == q + [t];
      QueuedOf(q, [t], c);
      NoneQueued([t], c);
      assert Queued(q, c) + [] == Queued(q, c);
    } else {
      assert QueueOf(Push(s, l, t), c) == q;
    }
  }

  lemma DropKeepsTransit(s: Sys, d: nat, c: nat, who: Option<nat>)
    requires Known(s, d) && Known(s, c)
    ensures Transit(DropConn(s, d), c, who) == Transit(s, c, who)
  {
    var s1 := Forget(Put(s, d, DroppedRec(s.conns[d])), d);
    assert QueueOf(s1, c) == QueueOf(s, c) && Transit(s1, c, who) == Transit(s, c, who);
    if s.conns[d].loop != 0 {
      PushKeepsTransit(s1, s.conns[d].loop, DestroyT(d), c, who);
    }
  }

  lemma AcceptKeepsTransit(s: Sys, mark: Option<nat>, c: nat, who: Option<nat>)
    requires Known(s, c) && NextLoop(s) < |s.queues| && c != s.nextConnId
    ensures Transit(NewConnection(s, mark), c, who) == Transit(s, c, who)
  {
    var s1 := Admit(s, mark);
    assert QueueOf(s1, c) == QueueOf(s, c) && Transit(s1, c, who) == Transit(s, c, who);
    PushKeepsTransit(s1, NextLoop(s), EstablishT(s.nextConnId), c, who);
  }

  lemma SystemFlows(s: Sys, e: Event, c: nat, who: Option<nat>)
    requires Inv(s) && Allowed(s, e) && Known(s, c) && (e.Accept? || e.Destruct? || e.Drop?)
    ensures Flows(s, e, Step(s, e), c, who)
  {
    match e {
      case Accept(mark) => AcceptKeepsTransit(s, mark, c, who);
      case Drop(d) => DropKeepsTransit(s, d, c, who);
      case Destruct => assert Transit(Step(s, e), c, who) == Transit(s, c, who);
    }
    QuietlyFlows(s, e, c, who);
  }

  lemma StepFlows(s: Sys, e: Event, c: nat, who: Option<nat>)
    requires Inv(s) && Tagged(s) && Allowed(s, e) && c in s.conns
    ensures Flows(s, e, Step(s, e), c, who)
  {
    if e.RunTask? {
      RunFlows(s, e, c, who);
    } else if e.Report? {
      ReportFlows(s, e, c, who);
    } else if e.Send? {
      SendFlows(s, e, c, who);
    } else if e.Shutdown? || e.ForceClose? {
      EndFlows(s, e, c, who);
    } else if e.PushBy? {
      PushFlows(s, e, c, who);
    } else if SwitchesRead(e) {
      ReadFlows(s, e, c, who);
    } else {
      SystemFlows(s, e, c, who);
    }
  }

  lemma CallTagged(s: Sys, e: Event)
    requires Tagged(s) && Allowed(s, e) && (e.Send? || e.Shutdown? || e.ForceClose?)
    ensures Tagged(Step(s, e))
  {
  }

  lemma PushTagged(s: Sys, e: Event)
    requires Tagged(s) && Allowed(s, e) && e.PushBy?
    ensures Tagged(Step(s, e))
  {
  }

  lemma OtherFlies(s: Sys, e: Event)
    requires Allowed(s, e) && (e.Accept? || e.Destruct? || e.Drop? || SwitchesRead(e))
    ensures Step(s, e).inflight == s.inflight
  {
    if SwitchesRead(e) {
      TaskFlies(s, if e.StartRead? then StartReadT(e.c) else StopReadT(e.c), WouldBlock);
    }
  }

  lemma StepTagged(s: Sys, e: Event)
    requires Tagged(s) && Allowed(s, e)
    ensures Tagged(Step(s, e))
  {
    if e.RunTask? {
      TaskFlies(Pop(s, e.loop), s.queues[e.loop][0], e.w);
    } else if e.Report? {
      ReportFlies(s, e);
    } else if e.Send? || e.Shutdown? || e.ForceClose? {
      CallTagged(s, e);
    } else if e.PushBy? {
      PushTagged(s, e);
    } else {
      OtherFlies(s, e);
    }
  }

  lemma ReportFlies(s: Sys, e: Event)
    requires e.Report? && Allowed(s, e)
    ensures Step(s, e).inflight == s.inflight
  {
    var s1 := HandleHup(s, e.c, e.rev);
    assert s1.inflight == s.inflight;
    assert HandleRead(s1, e.c, e.rev, e.rd).inflight == s.inflight;
  }

  // --- The log of sendInLoop -------------------------------------------------------------------

  function Datas(ms: seq<Msg>): (r: seq<seq<Byte>>)
    ensures |r| == |ms|
  {
    seq(|ms|, i requires 0 <= i < |ms| => ms[i].data)
  }

  // The messages sendInLoop was called with.
  function Logged(s: Sys, c: nat): seq<seq<Byte>> { if c in s.conns then LogDatas(s.conns[c].conn.log) else [] }

  function LogDatas(log: seq<SendCall>): (r: seq<seq<Byte>>)
    ensures |r| == |log|
  {
    seq(|log|, i requires 0 <= i < |log| => log[i].data)
  }

  lemma SendLogs(k: Conn, data: seq<Byte>, w: WriteResult)
    requires Possible(w, |data|)
    ensures LogDatas(SendInLoop(k, data, w).log) == LogDatas(k.log) + [data]
  {
    var rest := SendSplit(k, data, w);
    EnqueueFrame(TryWrite(k, data, w), rest);
  }

  lemma TaskLogs(s: Sys, t: Task, w: WriteResult, c: nat)
    requires Known(s, t.c) && (t.SendT? ==> Possible(w, |t.data|)) && c in s.conns
    ensures Logged(Execute(s, t, w), c) == Logged(s, c) + Datas(Just(Message(t, c)))
  {
    if t.SendT? && t.c == c {
      SendLogs(s.conns[c].conn, t.data, w);
    } else {
      assert Execute(s, t, w).conns[c].conn.log == s.conns[c].conn.log;
    }
  }

  predicate SameLog(s: Sys, s': Sys, c: nat) {
    c in s.conns && c in s'.conns && s'.conns[c].conn.log == s.conns[c].conn.log
  }

  lemma CloseLogs(s: Sys, d: nat, c: nat)
    requires Known(s, d) && c in s.conns
    ensures SameLog(s, CloseConn(s, d), c)
  {
  }

  lemma OutLogs(s: Sys, d: nat, rev: Revents, w: WriteResult, c: nat)
    requires Known(s, d) && c in s.conns && Possible(w, |s.conns[d].conn.out|)
    ensures SameLog(s, HandleOut(s, d, rev, w), c)
  {
  }

  lemma ReportLogs(s: Sys, e: Event, c: nat)
    requires e.Report? && Allowed(s, e) && c in s.conns
    ensures SameLog(s, Step(s, e), c)
  {
    CloseLogs(s, e.c, c);
    var s1 := HandleHup(s, e.c, e.rev);
    CloseLogs(s1, e.c, c);
    OutLogs(HandleRead(s1, e.c, e.rev, e.rd), e.c, e.rev, e.w, c);
  }

  lemma SendStepLogs(s: Sys, e: Event, c: nat)
    requires e.Send? && Allowed(s, e) && c in s.conns
    ensures Logged(Step(s, e), c) == Logged(s, c) + Datas(Just(Hands(s, e, c)))
  {
    if e.c == c && e.caller.None? && s.conns[c].conn.state == Connected {
      SendLogs(s.conns[c].conn, e.data, e.w);
    } else {
      assert Step(s, e).conns[c].conn.log == s.conns[c].conn.log;
    }
  }

  lemma OtherLogs(s: Sys, e: Event, c: nat)
    requires Allowed(s, e) && c in s.conns && c != s.nextConnId
    requires e.Shutdown? || e.ForceClose? || e.PushBy? || SwitchesRead(e) || e.Accept? || e.Destruct? || e.Drop?
    ensures SameLog(s, Step(s, e), c)
  {
  }

  lemma SilentLogs(s: Sys, e: Event, c: nat)
    requires Allowed(s, e) && SameLog(s, Step(s, e), c) && Hands(s, e, c).None?
    ensures Logged(Step(s, e), c) == Logged(s, c) + Datas(Just(Hands(s, e, c)))
  {
    assert Logged(s, c) + Datas([]) == Logged(s, c);
  }

  lemma StepLogs(s: Sys, e: Event, c: nat)
    requires Inv(s) && Allowed(s, e) && c in s.conns
    ensures Logged(Step(s, e), c) == Logged(s, c) + Datas(Just(Hands(s, e, c)))
  {
    if e.RunTask? {
      RunHands(s, e, c, None);
      TaskLogs(Pop(s, e.loop), s.queues[e.loop][0], e.w, c);
    } else if e.Send? {
      SendStepLogs(s, e, c);
    } else {
      if e.Report? { ReportLogs(s, e, c); } else { OtherLogs(s, e, c); }
      SilentLogs(s, e, c);
    }
  }

  // --- Every run ---------------------------------------------------------------------------------

  // Before it is accepted a connection has no messages anywhere.
  lemma NothingYet(s: Sys, c: nat, who: Option<nat>)
    requires WellFormed(s) && c !in s.conns
    ensures Transit(s, c, who) == [] && Logged(s, c) == []
  {
    if who.Some? && who.value in s.inflight {
      assert Flying(s, s.inflight[who.value]);
    }
  }

  lemma NewPassesNone(s: Sys, e: Event, c: nat)
    requires WellFormed(s) && Allowed(s, e) && c !in s.conns
    ensures Passes(s, e, c).None? && Hands(s, e, c).None?
  {
    if e.RunTask? {
      assert Placed(s, e.loop, s.queues[e.loop][0]);
    }
  }

  lemma NewHasNone(s: Sys, e: Event, c: nat, who: Option<nat>)
    requires Inv(s) && Legal(s, e) && c !in s.conns
    ensures Transit(Step(s, e), c, who) == [] && Logged(Step(s, e), c) == []
  {
    StepWellFormed(s, e);
    StepKeys(s, e);
    if c in Step(s, e).conns {
      AcceptedHasNone(s, e.mark, who);
    } else {
      NothingYet(Step(s, e), c, who);
    }
  }

  lemma AcceptedHasNone(s: Sys, mark: Option<nat>, who: Option<nat>)
    requires WellFormed(s) && Allowed(s, Accept(mark))
    ensures var s', c := Step(s, Accept(mark)), s.nextConnId; Transit(s', c, who) == [] && Logged(s', c) == []
  {
    var s', c := Step(s, Accept(mark)), s.nextConnId;
    NothingYet(s, c, who);
    assert InFlight(s', c, who) == InFlight(s, c, who);
    AcceptQueues(s, mark, NextLoop(s));
    forall i | 0 <= i < |QueueOf(s', c)| ensures !(QueueOf(s', c)[i].SendT? && QueueOf(s', c)[i].c == c) {
      assert i < |s.queues[NextLoop(s)]| ==> Placed(s, NextLoop(s), s.queues[NextLoop(s)][i]);
    }
    NoneQueued(QueueOf(s', c), c);
  }

  // One step of the account, whether or not c was accepted yet.
  ghost predicate Accounted(s: Sys, e: Event, c: nat, who: Option<nat>) {
    && Allowed(s, e) && Flows(s, e, Step(s, e), c, who)
    && Logged(Step(s, e), c) == Logged(s, c) + Datas(Just(Hands(s, e, c)))
  }

  lemma NewAccount(s: Sys, e: Event, c: nat, who: Option<nat>)
    requires Inv(s) && Legal(s, e) && c !in s.conns
    ensures Accounted(s, e, c, who)
  {
    NewPassesNone(s, e, c);
    NewHasNone(s, e, c, who);
    NothingYet(s, c, who);
    EmptyAccount(s, e, Step(s, e), c, who);
  }

  lemma EmptyAccount(s: Sys, e: Event, s': Sys, c: nat, who: Option<nat>)
    requires Passes(s, e, c).None? && Hands(s, e, c).None? && Transit(s, c, who) == Transit(s', c, who) == []
    requires Logged(s, c) == Logged(s', c) == []
    ensures Flows(s, e, s', c, who) && Logged(s', c) == Logged(s, c) + Datas(Just(Hands(s, e, c)))
  {
    assert By(who, []) == [] && Datas([]) == [];
  }

  lemma OldAccount(s: Sys, e: Event, c: nat, who: Option<nat>)
    requires Inv(s) && Tagged(s) && Legal(s, e) && c in s.conns
    ensures Accounted(s, e, c, who)
  {
    StepFlows(s, e, c, who);
    StepLogs(s, e, c);
  }

  lemma StepAccount(s: Sys, e: Event, c: nat, who: Option<nat>)
    requires Inv(s) && Tagged(s) && Legal(s, e)
    ensures Accounted(s, e, c, who) && Tagged(Step(s, e))
  {
    StepTagged(s, e);
    if c in s.conns {
      OldAccount(s, e, c, who);
    } else {
      NewAccount(s, e, c, who);
    }
  }

  lemma FirstAccount(s: Sys, es: seq<Event>, c: nat, who: Option<nat>) returns (s': Sys, e: Event)
    requires Inv(s) && Tagged(s) && LegalRun(s, es) && es != []
    ensures Inv(s') && Tagged(s') && LegalRun(s', es[1..]) && After(s, es) == After(s', es[1..])
    ensures Flows(s, e, s', c, who) && Logged(s', c) == Logged(s, c) + Datas(Just(Hands(s, e, c)))
    ensures Passed(s, es, c) == Just(Passes(s, e, c)) + Passed(s', es[1..], c)
    ensures Handed(s, es, c) == Just(Hands(s, e, c)) + Handed(s', es[1..], c)
  {
    e := es[0];
    StepAccount(s, e, c, who);
    StepKeepsInv(s, e);
    s' := Step(s, e);
  }

  lemma AccountCons(a: seq<Msg>, p: seq<Msg>, h: seq<Msg>, a': seq<Msg>, ps: seq<Msg>, hs: seq<Msg>, z: seq<Msg>)
    requires a + p == h + a' && a' + ps == hs + z
    ensures a + (p + ps) == (h + hs) + z
  {
    Assoc(a, p, ps);
    Assoc(h, a', ps);
    Assoc(h, hs, z);
  }

  lemma DatasOf(a: seq<Msg>, b: seq<Msg>)
    ensures Datas(a + b) == Datas(a) + Datas(b)
  {
  }

  lemma LoggedCons(a: seq<seq<Byte>>, h: seq<Msg>, hs: seq<Msg>)
    ensures a + Datas(h) + Datas(hs) == a + Datas(h + hs)
  {
    DatasOf(h, hs);
    Assoc(a, Datas(h), Datas(hs));
  }

  lemma {:induction false} RunAccount(s: Sys, es: seq<Event>, c: nat, who: Option<nat>)
    requires Inv(s) && Tagged(s) && LegalRun(s, es)
    ensures Transit(s, c, who) + By(who, Passed(s, es, c)) == By(who, Handed(s, es, c)) + Transit(After(s, es), c, who)
    ensures Logged(After(s, es), c) == Logged(s, c) + Datas(Handed(s, es, c))
    decreases |es|
  {
    if es == [] {
      assert By(who, []) == [] && Transit(s, c, who) + [] == [] + Transit(s, c, who);
      assert Logged(s, c) + Datas([]) == Logged(s, c);
    } else {
      var s', e := FirstAccount(s, es, c, who);
      RunAccount(s', es[1..], c, who);
      var p, h := Just(Passes(s, e, c)), Just(Hands(s, e, c));
      var ps, hs := Passed(s', es[1..], c), Handed(s', es[1..], c);
      ByOf(who, p, ps);
      ByOf(who, h, hs);
      AccountCons(Transit(s, c, who), By(who, p), By(who, h), Transit(s', c, who), By(who, ps), By(who, hs),
                  Transit(After(s', es[1..]), c, who));
      LoggedCons(Logged(s, c), h, hs);
    }
  }

  // For every caller, the messages that passed the test of send() are those handed to
  // sendInLoop, then those queued, then the one in flight: each once and in order.  And what
  // was handed to sendInLoop is what its log holds, in order.
  lemma MessagesAccounted(n: nat, es: seq<Event>, c: nat, who: Option<nat>)
    requires LegalRun(Init(n), es) && c in After(Init(n), es).conns
    ensures var s := After(Init(n), es);
            && By(who, Passed(Init(n), es, c)) ==
               By(who, Handed(Init(n), es, c)) + (By(who, Queued(QueueOf(s, c), c)) + InFlight(s, c, who))
            && LogDatas(s.conns[c].conn.log) == Datas(Handed(Init(n), es, c))
  {
    InitInv(n);
    RunKeepsInv(Init(n), es);
    RunAccount(Init(n), es, c, who);
    NothingYet(Init(n), c, who);
  }
}
