/** One TCP connection as seen by its I/O loop: the state word, the channel's event
    mask and poller index, the output buffer, and histories of what crossed the socket.
    `Conn` is the value the methods of `TcpConnection` are specified against. */
module Connection {
  import opened Bytes
  import opened ChannelIndex

  datatype StateE = Disconnected | Connecting | Connected | Disconnecting

  // What write(2) may answer.  Fault is EPIPE or ECONNRESET.
  datatype WriteResult = Wrote(n: nat) | WouldBlock | Fault | OtherError

  // One call of sendInLoop: its argument, the state it saw, and the answer of the
  // direct write if one was made.
  datatype SendCall = SendCall(data: seq<Byte>, state: StateE, direct: Option<WriteResult>)

  datatype Conn = Conn(
    state: StateE,
    wantsRead: bool,            // reading_
    reading: bool,              // kReadEvent in the channel's mask
    writing: bool,              // kWriteEvent in the channel's mask
    index: Index,
    registered: bool,           // the poller's channels_ holds the channel
    out: seq<Byte>,             // outputBuffer_
    mark: Option<nat>,          // highWaterMark_, None when no callback is set
    wire: seq<Byte>,            // history: bytes the kernel accepted
    log: seq<SendCall>,         // history: sendInLoop calls
    lens: seq<nat>,             // history: output-buffer length after each operation
    notified: nat,              // history: high-water notifications queued
    fin: Option<nat>,           // history: |wire| at the first shutdown(SHUT_WR)
    lateWrites: nat)            // history: write(2) calls made after SHUT_WR

  predicate Idle(c: Conn) { !c.reading && !c.writing }

  predicate Open(c: Conn) { c.state == Connected || c.state == Disconnecting }

  // Channel::update through EPollPoller::updateChannel.
  function UpdateIndex(c: Conn): Index {
    if c.index == Added && Idle(c) then Deleted else Added
  }

  function Update(c: Conn): Conn { c.(index := UpdateIndex(c), registered := true) }

  // What updateChannel asserts of channels_: a kNew channel is absent, others are there.
  predicate ChannelOk(c: Conn) { c.registered <==> c.index != New }

  function Fresh(mark: Option<nat>): Conn {
    Conn(Connecting, true, false, false, New, false, [], mark, [], [], [0], 0, None, 0)
  }

  predicate Possible(w: WriteResult, len: nat) { w.Wrote? ==> w.n <= len }

  function Late(c: Conn): nat { if c.fin.Some? then 1 else 0 }

  predicate Crosses(mark: Option<nat>, before: nat, after: nat) {
    mark.Some? && before < mark.value <= after
  }

  predicate WritesDirectly(c: Conn) {
    c.state != Disconnected && !c.writing && c.out == []
  }

  // The first half of sendInLoop: the direct write.
  function TryWrite(c: Conn, data: seq<Byte>, w: WriteResult): Conn
    requires Possible(w, |data|)
  {
    if WritesDirectly(c) then
      c.(wire := c.wire + data[..Written(w)],
         log := c.log + [SendCall(data, c.state, Some(w))],
         lateWrites := c.lateWrites + Late(c))
    else
      c.(log := c.log + [SendCall(data, c.state, None)])
  }

  function Written(w: WriteResult): nat { if w.Wrote? then w.n else 0 }

  // The second half: buffer what is left and ask for write events.
  function Enqueue(c: Conn, rest: seq<Byte>): Conn
  {
    if rest == [] then c else
    var c1 := c.(out := c.out + rest,
                 notified := c.notified + if Crosses(c.mark, |c.out|, |c.out| + |rest|) then 1 else 0);
    if c1.writing then c1 else Update(c1.(writing := true))
  }

  function Noted(c: Conn): Conn { c.(lens := c.lens + [|c.out|]) }

  function SendInLoop(c: Conn, data: seq<Byte>, w: WriteResult): Conn
    requires Possible(w, |data|)
  {
    var c1 := TryWrite(c, data, w);
    if c.state == Disconnected || (WritesDirectly(c) && w == Fault) then Noted(c1)
    else Noted(Enqueue(c1, if WritesDirectly(c) then data[Written(w)..] else data))
  }

  function ShutdownInLoop(c: Conn): Conn {
    if c.writing || c.fin.Some? then c else c.(fin := Some(|c.wire|))
  }

  function HandleWrite(c: Conn, w: WriteResult): Conn
    requires Possible(w, |c.out|)
  {
    if !c.writing then c else
    var c0 := c.(lateWrites := c.lateWrites + Late(c));
    if Written(w) == 0 then c0 else
    var c1 := Noted(c0.(wire := c.wire + c.out[..w.n], out := c.out[w.n..]));
    if c1.out != [] then c1 else
    var c2 := Update(c1.(writing := false));
    if c.state == Disconnecting then ShutdownInLoop(c2) else c2
  }

  function HandleClose(c: Conn): Conn {
    Update(c.(state := Disconnected, reading := false, writing := false))
  }

  // stopReadInLoop and startReadInLoop
  function StopRead(c: Conn): Conn {
    if c.wantsRead || c.reading then Update(c.(reading := false, wantsRead := false)) else c
  }

  function StartRead(c: Conn): Conn {
    if !c.wantsRead || !c.reading then Update(c.(reading := true, wantsRead := true)) else c
  }

  function Establish(c: Conn): Conn {
    Update(c.(state := Connected, reading := true))
  }

  function Destroy(c: Conn): Conn {
    var c1 := if c.state == Connected then HandleClose(c) else c;
    c1.(index := New, registered := false)
  }

  // --- What the histories must say, independently of the operations -------------

  predicate Dropped(s: SendCall) {
    s.state == Disconnected || s.direct == Some(Fault)
  }

  // The bytes of all undropped sendInLoop calls, in call order.
  function Undropped(log: seq<SendCall>): seq<Byte> {
    if log == [] then [] else
    var last := log[|log| - 1];
    Undropped(log[..|log| - 1]) + if Dropped(last) then [] else last.data
  }

  // How often a sequence of lengths goes from below the mark to it or above it.
  function Crossings(mark: Option<nat>, lens: seq<nat>): nat {
    if |lens| < 2 then 0 else
    var before, after := lens[|lens| - 2], lens[|lens| - 1];
    Crossings(mark, lens[..|lens| - 1]) + if mark.Some? && before < mark.value && mark.value <= after then 1 else 0
  }

  predicate Conserves(c: Conn) { c.wire + c.out == Undropped(c.log) }

  predicate InterestMatches(c: Conn) {
    && (c.state != Disconnected ==> (c.writing <==> c.out != []))
    && (c.state == Disconnected ==> !c.writing)
  }

  predicate MarkCounted(c: Conn) {
    && c.lens != [] && c.lens[|c.lens| - 1] == |c.out|
    && c.notified == Crossings(c.mark, c.lens)
  }

  predicate OutputOk(c: Conn) { Conserves(c) && InterestMatches(c) && MarkCounted(c) }

  // The kernel watches an open connection exactly while it is interested in something, and
  // reading_ is the read bit of its mask.
  predicate Tracks(c: Conn) {
    c.index != New && (c.index == Added <==> c.reading || c.writing) && c.wantsRead == c.reading
  }

  predicate Unborn(c: Conn) { c.state == Connecting && Idle(c) && c.index == New && c.wantsRead }

  // What every method of a connection keeps.
  predicate ConnOk(c: Conn) {
    && OutputOk(c) && ChannelOk(c)
    && (Open(c) ==> Tracks(c))
    && (c.state == Connecting ==> c.wantsRead)
  }

  lemma UndroppedSnoc(log: seq<SendCall>, s: SendCall)
    ensures Undropped(log + [s]) == Undropped(log) + if Dropped(s) then [] else s.data
  {
    assert (log + [s])[..|log|] == log;
  }

  lemma CrossingsSnoc(mark: Option<nat>, lens: seq<nat>, n: nat)
    requires lens != []
    ensures Crossings(mark, lens + [n])
         == Crossings(mark, lens) + if Crosses(mark, lens[|lens| - 1], n) then 1 else 0
  {
    assert (lens + [n])[..|lens|] == lens;
  }

  lemma SplitAt(data: seq<Byte>, k: nat)
    requires k <= |data|
    ensures data[..k] + data[k..] == data
  {
  }

  lemma DirectSendConserves(c: Conn, data: seq<Byte>, w: WriteResult)
    requires Possible(w, |data|) && Conserves(c) && WritesDirectly(c)
    ensures Conserves(SendInLoop(c, data, w))
  {
    var c' := SendInLoop(c, data, w);
    UndroppedSnoc(c.log, SendCall(data, c.state, Some(w)));
    assert c.wire == Undropped(c.log);
    if w != Fault {
      SplitAt(data, Written(w));
      Assoc(c.wire, data[..Written(w)], data[Written(w)..]);
      assert c'.out == data[Written(w)..];
    }
  }

  lemma SendConserves(c: Conn, data: seq<Byte>, w: WriteResult)
    requires Possible(w, |data|) && Conserves(c)
    ensures Conserves(SendInLoop(c, data, w))
  {
    if WritesDirectly(c) {
      DirectSendConserves(c, data, w);
    } else {
      UndroppedSnoc(c.log, SendCall(data, c.state, None));
      Assoc(c.wire, c.out, data);
    }
  }

  // The direct write touches only the wire, its log and the count of late writes.
  lemma TryWriteFrame(c: Conn, data: seq<Byte>, w: WriteResult)
    requires Possible(w, |data|)
    ensures var t := TryWrite(c, data, w);
            t == c.(wire := t.wire, log := t.log, lateWrites := t.lateWrites)
  {
  }

  // Buffering touches the output, write interest, the channel and the count of
  // notifications, which grows exactly when the length crosses the mark.
  lemma EnqueueFrame(c: Conn, rest: seq<Byte>)
    ensures var q := Enqueue(c, rest);
            && q == c.(out := c.out + rest, writing := q.writing, index := q.index,
                       registered := q.registered, notified := q.notified)
            && q.notified == c.notified + (if Crosses(c.mark, |c.out|, |q.out|) then 1 else 0)
            && (q.writing <==> c.writing || rest != [])
  {
  }

  // sendInLoop as its two halves.
  lemma SendSplit(c: Conn, data: seq<Byte>, w: WriteResult)
    returns (rest: seq<Byte>)
    requires Possible(w, |data|)
    ensures SendInLoop(c, data, w) == Noted(Enqueue(TryWrite(c, data, w), rest))
    ensures c.state == Disconnected ==> rest == []
  {
    rest := if c.state == Disconnected || (WritesDirectly(c) && w == Fault) then []
            else if WritesDirectly(c) then data[Written(w)..] else data;
  }

  lemma SendInterest(c: Conn, data: seq<Byte>, w: WriteResult)
    requires Possible(w, |data|) && InterestMatches(c)
    ensures InterestMatches(SendInLoop(c, data, w))
  {
    var rest := SendSplit(c, data, w);
    TryWriteFrame(c, data, w);
    EnqueueFrame(TryWrite(c, data, w), rest);
  }

  lemma NotedCounted(c: Conn, before: nat)
    requires c.lens != [] && c.lens[|c.lens| - 1] == before
    requires c.notified == Crossings(c.mark, c.lens) + if Crosses(c.mark, before, |c.out|) then 1 else 0
    ensures MarkCounted(Noted(c))
  {
    CrossingsSnoc(c.mark, c.lens, |c.out|);
  }

  lemma SendCounted(c: Conn, data: seq<Byte>, w: WriteResult)
    requires Possible(w, |data|) && MarkCounted(c)
    ensures MarkCounted(SendInLoop(c, data, w))
  {
    var rest := SendSplit(c, data, w);
    TryWriteFrame(c, data, w);
    EnqueueFrame(TryWrite(c, data, w), rest);
    NotedCounted(Enqueue(TryWrite(c, data, w), rest), |c.out|);
  }

  // sendInLoop notifies exactly when the buffer was below the mark and now is not.
  lemma SendNotifies(c: Conn, data: seq<Byte>, w: WriteResult)
    requires Possible(w, |data|)
    ensures var c' := SendInLoop(c, data, w);
            && c'.mark == c.mark
            && c'.notified == c.notified +
               if c.mark.Some? && |c.out| < c.mark.value && c.mark.value <= |c'.out| then 1 else 0
  {
    var rest := SendSplit(c, data, w);
    TryWriteFrame(c, data, w);
    EnqueueFrame(TryWrite(c, data, w), rest);
  }

  // handleWrite notifies nobody.
  lemma WriteNotifiesNot(c: Conn, w: WriteResult)
    requires Possible(w, |c.out|)
    ensures HandleWrite(c, w).notified == c.notified
  {
  }

  lemma SendKeepsOutput(c: Conn, data: seq<Byte>, w: WriteResult)
    requires Possible(w, |data|) && OutputOk(c)
    ensures OutputOk(SendInLoop(c, data, w))
  {
    SendConserves(c, data, w);
    SendInterest(c, data, w);
    SendCounted(c, data, w);
  }

  lemma WriteConserves(c: Conn, w: WriteResult)
    requires Possible(w, |c.out|) && Conserves(c)
    ensures Conserves(HandleWrite(c, w))
  {
    if c.writing && Written(w) > 0 {
      SplitAt(c.out, w.n);
      Assoc(c.wire, c.out[..w.n], c.out[w.n..]);
    }
  }

  lemma WriteInterestKept(c: Conn, w: WriteResult)
    requires Possible(w, |c.out|) && InterestMatches(c)
    ensures InterestMatches(HandleWrite(c, w))
  {
  }

  // Once the write took something: the buffer drains, then interest may end.
  function Drained(c: Conn, n: nat): Conn
    requires n <= |c.out|
  {
    c.(wire := c.wire + c.out[..n], out := c.out[n..], lateWrites := c.lateWrites + Late(c))
  }

  lemma WriteSplit(c: Conn, w: WriteResult)
    requires Possible(w, |c.out|) && c.writing && Written(w) > 0
    ensures var d, c' := Noted(Drained(c, w.n)), HandleWrite(c, w);
            && c'.lens == d.lens && c'.out == d.out && c'.notified == d.notified && c'.mark == d.mark
  {
  }

  lemma WriteCounted(c: Conn, w: WriteResult)
    requires Possible(w, |c.out|) && MarkCounted(c)
    ensures MarkCounted(HandleWrite(c, w))
  {
    if c.writing && Written(w) > 0 {
      WriteSplit(c, w);
      NotedCounted(Drained(c, w.n), |c.out|);
    }
  }

  lemma WriteKeepsOutput(c: Conn, w: WriteResult)
    requires Possible(w, |c.out|) && OutputOk(c)
    ensures OutputOk(HandleWrite(c, w))
  {
    WriteConserves(c, w);
    WriteInterestKept(c, w);
    WriteCounted(c, w);
  }

  // --- The channel: what the poller knows follows from the mask ---------------------

  // Output operations leave state and read interest alone and keep the channel tracked.
  predicate OutputStep(c: Conn, c': Conn) {
    && c'.state == c.state && c'.reading == c.reading && c'.wantsRead == c.wantsRead
    && (ChannelOk(c) ==> ChannelOk(c'))
    && (Tracks(c) ==> Tracks(c'))
    && (c.state == Disconnected && !c.writing ==> !c'.writing && c'.index == c.index)
  }

  lemma SendIsOutputStep(c: Conn, data: seq<Byte>, w: WriteResult)
    requires Possible(w, |data|)
    ensures OutputStep(c, SendInLoop(c, data, w))
  {
    var rest := SendSplit(c, data, w);
    TryWriteFrame(c, data, w);
    EnqueueStep(TryWrite(c, data, w), rest);
  }

  lemma EnqueueStep(c: Conn, rest: seq<Byte>)
    requires c.state == Disconnected ==> rest == []
    ensures OutputStep(c, Enqueue(c, rest))
  {
  }

  lemma WriteIsOutputStep(c: Conn, w: WriteResult)
    requires Possible(w, |c.out|)
    ensures OutputStep(c, HandleWrite(c, w))
  {
  }

  // Where a close leaves the channel: off the poller if it was watched, and otherwise back
  // on it with an empty mask.
  lemma CloseIndex(c: Conn)
    requires Open(c) && Tracks(c) && InterestMatches(c)
    ensures HandleClose(c).index == if c.reading || c.out != [] then Deleted else Added
  {
  }

  // --- What the methods of a connection keep ------------------------------------------

  lemma SendKeepsConn(c: Conn, data: seq<Byte>, w: WriteResult)
    requires ConnOk(c) && Possible(w, |data|)
    ensures ConnOk(SendInLoop(c, data, w))
  {
    SendKeepsOutput(c, data, w);
    SendIsOutputStep(c, data, w);
  }

  // sendInLoop adds its message at the end of what the peer is to get, or drops it whole.
  lemma SendAppends(c: Conn, data: seq<Byte>, w: WriteResult)
    requires Possible(w, |data|)
    ensures var c' := SendInLoop(c, data, w);
            var direct := c.state != Disconnected && !c.writing && c.out == [];
            && c'.wire + c'.out == c.wire + c.out +
               (if c.state == Disconnected || (direct && w == Fault) then [] else data)
            && c'.wire == c.wire + if direct && w.Wrote? then data[..w.n] else []
  {
    if c.state == Disconnected {
      assert c.wire + [] == c.wire;
    } else if WritesDirectly(c) {
      DirectAppends(c, data, w);
    } else {
      Assoc(c.wire, c.out, data);
      assert c.wire + [] == c.wire;
    }
  }

  lemma DirectAppends(c: Conn, data: seq<Byte>, w: WriteResult)
    requires Possible(w, |data|) && WritesDirectly(c)
    ensures var c' := SendInLoop(c, data, w);
            && c'.wire + c'.out == c.wire + c.out + (if w == Fault then [] else data)
            && c'.wire == c.wire + if w.Wrote? then data[..w.n] else []
  {
    var k := Written(w);
    SplitAt(data, k);
    Assoc(c.wire, data[..k], data[k..]);
    assert data[..0] == [] && c.wire + [] == c.wire && [] + data[k..] == data[k..];
    var rest := if w == Fault then [] else data[k..];
    TryWriteFrame(c, data, w);
    EnqueueFrame(TryWrite(c, data, w), rest);
  }

  lemma WriteKeepsConn(c: Conn, w: WriteResult)
    requires ConnOk(c) && Possible(w, |c.out|)
    ensures ConnOk(HandleWrite(c, w))
  {
    WriteKeepsOutput(c, w);
    WriteIsOutputStep(c, w);
  }

  // handleWrite moves bytes from the buffer to the wire.
  lemma WriteMoves(c: Conn, w: WriteResult)
    requires Possible(w, |c.out|)
    ensures HandleWrite(c, w).wire + HandleWrite(c, w).out == c.wire + c.out
  {
    if c.writing && Written(w) > 0 {
      SplitAt(c.out, w.n);
      Assoc(c.wire, c.out[..w.n], c.out[w.n..]);
    }
  }

  lemma ShutdownKeepsConn(c: Conn)
    requires ConnOk(c)
    ensures ConnOk(ShutdownInLoop(c))
  {
  }

  // SHUT_WR is issued exactly with an empty buffer, everything undropped being on the wire.
  lemma ShutdownFlushed(c: Conn)
    requires ConnOk(c) && c.state != Disconnected && c.fin.None?
    ensures ShutdownInLoop(c).fin.Some? <==> c.out == []
    ensures ShutdownInLoop(c).fin.Some? ==> c.wire == Undropped(c.log) && ShutdownInLoop(c).fin.value == |c.wire|
  {
    if c.out == [] {
      assert c.wire + c.out == c.wire;
    }
  }

  lemma LifeKeepsConn(c: Conn)
    requires ConnOk(c)
    ensures ConnOk(HandleClose(c)) && (c.state != Disconnecting ==> ConnOk(Destroy(c)))
    ensures c.state == Connecting ==> ConnOk(Establish(c)) && Establish(c).index == Added
  {
  }

  lemma SwitchKeepsConn(c: Conn)
    requires ConnOk(c) && c.state != Connecting
    ensures ConnOk(StartRead(c)) && ConnOk(StopRead(c))
  {
  }
}
