/** What a connection delivers, over every run: a prefix of what was sent on it. */
module Delivery {
  import opened Sequences
  import opened Framing
  import opened SocketLoops
  import opened Chunks
  import opened Epoll
  import opened Receiving
  import opened Server
  import Q = QueueMachine

  // ---------------------------------------------------------------- one connection

  predicate LinkOk(hasClientFunc: bool, k: Link) {
    && AllWellFormed(k.sent) && AllWellFormed(k.decoded)
    && k.read <= |k.wire|
    && [] !in k.pieces
    && k.wire <= Frames(k.sent)
    && (!k.writeDead ==> k.wire + Flatten(k.pieces) == Frames(k.sent))
    && Frames(k.decoded) <= k.wire[..k.read]
    && k.delivered == (if hasClientFunc then k.decoded else [])
  }

  /** Everything read off the connection is in decoded messages or in the receive in progress. */
  predicate ReadUpTo(k: Link, current: seq<byte>) {
    k.read <= |k.wire| && (!k.readDead ==> Frames(k.decoded) + current == k.wire[..k.read])
  }

  lemma {:induction false} FlattenNonEmpty(chunks: seq<seq<byte>>)
    ensures Flatten(NonEmpty(chunks)) == Flatten(chunks)
  {
    if chunks != [] {
      FlattenNonEmpty(chunks[1..]);
      if chunks[0] != [] {
        assert NonEmpty(chunks) == [chunks[0]] + NonEmpty(chunks[1..]);
        assert NonEmpty(chunks)[1..] == NonEmpty(chunks[1..]);
      } else {
        assert NonEmpty(chunks) == NonEmpty(chunks[1..]);
      }
    }
  }

  lemma {:induction false} NonEmptyHasNone(chunks: seq<seq<byte>>)
    ensures [] !in NonEmpty(chunks)
  {
    if chunks != [] {
      NonEmptyHasNone(chunks[1..]);
    }
  }

  lemma BuffersNotEmpty(plan: Plan)
    ensures [] !in plan.Buffers()
  {
    match plan
    case InOneCall(m) => NonEmptyHasNone([m.payload]);
    case InChunks(h, calls) => NonEmptyHasNone(WrittenAll(h, calls));
  }

  /** Chunked or not, the buffers of an adequate plan hold exactly the frame of the message it means. */
  lemma PlanFrames(plan: Plan)
    requires plan.Adequate()
    ensures WellFormed(plan.Meant()) && Flatten(plan.Buffers()) == Frame(plan.Meant())
  {
    match plan
    case InOneCall(m) =>
      FlattenNonEmpty([m.payload]);
      assert [m.payload][1..] == [];
      assert Flatten([m.payload]) == m.payload;
      assert plan.Buffers()[1..] == NonEmpty([m.payload]);
    case InChunks(h, calls) =>
      WrittenIsMeant(h, calls);
      FlattenNonEmpty(WrittenAll(h, calls));
      assert plan.Buffers()[1..] == NonEmpty(WrittenAll(h, calls));
  }

  /** A chunked plan whose chunks total msg_len puts that frame on the wire only if no chunk is empty. */
  lemma ChunkedPlanIsExact(plan: Plan)
    requires plan.InChunks? && AllCallable(plan.header, plan.calls) && WellFormed(plan.Meant())
    ensures Flatten(plan.Buffers()) == Frame(plan.Meant()) <==> plan.Adequate()
  {
    var body := WrittenAll(plan.header, plan.calls);
    WrittenIsMeant(plan.header, plan.calls);
    FlattenNonEmpty(body);
    assert plan.Buffers()[1..] == NonEmpty(body);
    assert Flatten(plan.Buffers())[HEADER_SIZE..] == Flatten(body);
    assert Frame(plan.Meant())[HEADER_SIZE..] == Flatten(ChunksOf(plan.calls));
  }

  lemma StartSendKeepsLink(hasClientFunc: bool, k: Link, plan: Plan)
    requires LinkOk(hasClientFunc, k) && k.pieces == [] && plan.Adequate()
    ensures LinkOk(hasClientFunc, k.(sent := k.sent + [plan.Meant()], pieces := plan.Buffers()))
  {
    PlanFrames(plan);
    BuffersNotEmpty(plan);
    FramesSnoc(k.sent, plan.Meant());
    assert k.wire + [] == k.wire;
  }

  /** Cutting n bytes off the front of the buffers to be written. */
  lemma CutPieces(pieces: seq<seq<byte>>, n: nat)
    requires pieces != [] && n <= |pieces[0]|
    ensures var left := pieces[0][n..];
            Flatten(pieces) == pieces[0][..n] + Flatten((if left == [] then [] else [left]) + pieces[1..])
  {
    var taken, left, later := pieces[0][..n], pieces[0][n..], pieces[1..];
    assert pieces[0] == taken + left;
    if left == [] {
      assert [] + later == later;
    } else {
      assert ([left] + later)[1..] == later;
      Associate(taken, left, Flatten(later));
    }
  }

  lemma WireGrows(k: Link, taken: seq<byte>)
    requires k.read <= |k.wire|
    ensures (k.wire + taken)[..k.read] == k.wire[..k.read]
  {
  }

  lemma TookKeepsLink(hasClientFunc: bool, k: Link, n: nat)
    requires LinkOk(hasClientFunc, k) && WriteStep(k, Took(n)).Some?
    ensures LinkOk(hasClientFunc, WriteStep(k, Took(n)).value)
  {
    var m := Accepted(Took(n), |k.pieces[0]|);
    var k' := WriteStep(k, Took(n)).value;
    CutPieces(k.pieces, m);
    Associate(k.wire, k.pieces[0][..m], Flatten(k'.pieces));
    WireGrows(k, k.pieces[0][..m]);
  }

  lemma WriteKeepsLink(hasClientFunc: bool, k: Link, r: WriteResult)
    requires LinkOk(hasClientFunc, k) && WriteStep(k, r).Some?
    ensures LinkOk(hasClientFunc, WriteStep(k, r).value)
    ensures k.wire <= WriteStep(k, r).value.wire
  {
    if r.Took? {
      TookKeepsLink(hasClientFunc, k, r.n);
    }
  }

  /** count more bytes of the wire are read, and become part of the message being received. */
  lemma ReadBytesKeepLink(hasClientFunc: bool, k: Link, current: seq<byte>, count: nat)
    requires LinkOk(hasClientFunc, k) && ReadUpTo(k, current) && k.read + count <= |k.wire| && !k.readDead
    ensures var k' := k.(read := k.read + count);
            LinkOk(hasClientFunc, k') && ReadUpTo(k', current + k.wire[k.read..k.read + count])
  {
    var bytes := k.wire[k.read..k.read + count];
    assert k.wire[..k.read + count] == k.wire[..k.read] + bytes;
    ReadGrows(Frames(k.decoded), current, bytes, k.wire[..k.read]);
    StillPrefix(Frames(k.decoded), k.wire[..k.read], bytes);
  }

  lemma ReceiverConsumes(k: Link, receiver: Receiver, count: nat)
    requires CanRead(k, receiver, count)
    ensures var receiver' := ReceiverAfter(k, receiver, count);
            receiver'.Valid() && receiver'.Consumed() == receiver.Consumed() + k.wire[k.read..k.read + count]
  {
    var bytes := k.wire[k.read..k.read + count];
    assert |bytes| == count;
    FeedConsumes(receiver, bytes);
    assert ReceiverAfter(k, receiver, count) == receiver.Feed(bytes);
  }

  /** The worker reads count more bytes into the message it is working on. */
  lemma ReadMoreKeepsLink(hasClientFunc: bool, k: Link, receiver: Receiver, count: nat)
    requires LinkOk(hasClientFunc, k) && ReadUpTo(k, receiver.Consumed()) && CanRead(k, receiver, count)
    ensures var receiver', k' := ReceiverAfter(k, receiver, count), k.(read := k.read + count);
            && receiver'.Valid()
            && LinkOk(hasClientFunc, k') && ReadUpTo(k', receiver'.Consumed())
  {
    ReceiverConsumes(k, receiver, count);
    ReadBytesKeepLink(hasClientFunc, k, receiver.Consumed(), count);
  }

  lemma StillPrefix(a: seq<byte>, b: seq<byte>, more: seq<byte>)
    requires a <= b
    ensures a <= b + more
  {
  }

  lemma ReadGrows(decoded: seq<byte>, current: seq<byte>, more: seq<byte>, read: seq<byte>)
    requires decoded + current == read
    ensures decoded + (current + more) == read + more
  {
  }

  /** With its last byte a message is decoded and delivered. */
  lemma CompleteKeepsLink(hasClientFunc: bool, k: Link, m: Message)
    requires LinkOk(hasClientFunc, k) && ReadUpTo(k, Frame(m)) && !k.readDead && WellFormed(m)
    ensures var k' := k.(decoded := k.decoded + [m],
                         delivered := if hasClientFunc then k.delivered + [m] else k.delivered);
            LinkOk(hasClientFunc, k') && ReadUpTo(k', [])
  {
    FramesSnoc(k.decoded, m);
    assert Frames(k.decoded + [m]) + [] == Frames(k.decoded + [m]);
  }

  lemma ReadKeepsLink(hasClientFunc: bool, k: Link, receiver: Receiver, count: nat)
    requires LinkOk(hasClientFunc, k) && ReadUpTo(k, receiver.Consumed()) && CanRead(k, receiver, count)
    ensures var receiver', k' := ReceiverAfter(k, receiver, count), LinkAfter(hasClientFunc, k, receiver, count);
            && receiver'.Valid() && LinkOk(hasClientFunc, k')
            && ReadUpTo(k', if receiver'.Complete? then [] else receiver'.Consumed())
  {
    ReadMoreKeepsLink(hasClientFunc, k, receiver, count);
    var receiver' := ReceiverAfter(k, receiver, count);
    if receiver'.Complete? {
      CompleteKeepsLink(hasClientFunc, k.(read := k.read + count), receiver'.message);
    }
  }

  /** No duplicate, no mix-up, no truncation: what was delivered is a prefix of what was sent. */
  lemma DeliveredIsPrefix(hasClientFunc: bool, k: Link)
    requires LinkOk(hasClientFunc, k)
    ensures k.decoded <= k.sent && k.delivered <= k.sent
  {
    assert Frames(k.decoded) <= Frames(k.sent) by {
      PrefixOfPrefix(Frames(k.decoded), k.wire[..k.read], k.wire[..k.read]);
      assert k.wire[..k.read] <= k.wire;
    }
    FramesPrefix(k.decoded, k.sent);
  }

  // ---------------------------------------------------------------- all connections

  predicate ReaderOk(r: Rest, w: WorkerId)
    requires w < |r.workers|
  {
    r.workers[w].pc.Reading? ==>
      var c := r.workers[w].pc.conn;
      var receiver := r.workers[w].pc.receiver;
      c in r.links && receiver.Valid() && !receiver.Complete? && ReadUpTo(r.links[c], receiver.Consumed())
  }

  predicate BeingRead(r: Rest, c: Conn) {
    exists w :: 0 <= w < |r.workers| && r.workers[w].pc.Reading? && r.workers[w].pc.conn == c
  }

  ghost predicate DeliveryOk(r: Rest) {
    && r.accepted <= r.links.Keys
    && (forall c :: c in r.links ==> LinkOk(r.hasClientFunc, r.links[c]))
    && (forall w :: 0 <= w < |r.workers| ==> ReaderOk(r, w))
    && (forall c :: c in r.links && !BeingRead(r, c) ==> ReadUpTo(r.links[c], []))
  }

  /** No two workers are reading from one connection. */
  predicate SingleReaders(r: Rest) {
    forall v, w |
      && 0 <= v < |r.workers| && r.workers[v].pc.Reading?
      && 0 <= w < |r.workers| && r.workers[w].pc.Reading?
      && r.workers[v].pc.conn == r.workers[w].pc.conn
      :: v == w
  }

  lemma DeliveryInitially(n: nat, hasClientFunc: bool)
    ensures DeliveryOk(Initially(n, hasClientFunc))
  {
  }

  /** Client c's connection has changed, without touching what the server has read of it. */
  ghost predicate OnlySending(r: Rest, r': Rest, c: Conn) {
    && c in r'.links
    && r' == r.(links := r.links[c := r'.links[c]], acceptor := r'.acceptor, accepted := r'.accepted)
    && r'.accepted <= r'.links.Keys
    && LinkOk(r.hasClientFunc, r'.links[c])
    && (if c in r.links then
          var k, k' := r.links[c], r'.links[c];
          k.wire <= k'.wire && k'.read == k.read && k'.readDead == k.readDead && k'.decoded == k.decoded
        else r'.links[c] == NEW_LINK)
  }

  lemma SendingKeepsDelivery(r: Rest, r': Rest, c: Conn)
    requires DeliveryOk(r) && OnlySending(r, r', c)
    ensures DeliveryOk(r')
  {
    forall w | 0 <= w < |r'.workers| ensures ReaderOk(r', w) {
      assert ReaderOk(r, w);
      if r.workers[w].pc.Reading? && r.workers[w].pc.conn == c {
        assert r'.links[c].wire[..r.links[c].read] == r.links[c].wire[..r.links[c].read];
      }
    }
    forall d | d in r'.links && !BeingRead(r', d) ensures ReadUpTo(r'.links[d], []) {
      assert d in r.links ==> !BeingRead(r, d) && ReadUpTo(r.links[d], []);
      if d == c && c in r.links {
        assert r'.links[c].wire[..r.links[c].read] == r.links[c].wire[..r.links[c].read];
      }
    }
  }

  lemma StartSendKeepsDelivery(r: Rest, c: Conn, plan: Plan, r': Rest)
    requires DeliveryOk(r) && Step(r, StartSend(c, plan)) == Some(r')
    ensures DeliveryOk(r')
  {
    StartSendKeepsLink(r.hasClientFunc, r.links[c], plan);
    SendingKeepsDelivery(r, r', c);
  }

  lemma ClientWriteKeepsDelivery(r: Rest, c: Conn, result: WriteResult, r': Rest)
    requires DeliveryOk(r) && Step(r, ClientWrite(c, result)) == Some(r')
    ensures DeliveryOk(r')
  {
    var k := r.links[c];
    WriteKeepsLink(r.hasClientFunc, k, result);
    var k' := WriteStep(k, result).value;
    assert k'.read == k.read && k'.readDead == k.readDead && k'.decoded == k.decoded;
    SendingKeepsDelivery(r, r', c);
  }

  lemma ConnectKeepsDelivery(r: Rest, l: Label, r': Rest)
    requires DeliveryOk(r) && Step(r, l) == Some(r') && (l.Connect? || l.ClientGone? || l.Accept?)
    ensures DeliveryOk(r')
  {
    if l.Accept? {
      assert r.links[l.conn := r.links[l.conn]] == r.links;
    }
    SendingKeepsDelivery(r, r', l.conn);
  }

  // ---------------------------------------------------------------- the workers' side

  /** Only worker w has moved. */
  predicate OnlyWorker(r: Rest, r': Rest, w: WorkerId) {
    && w < |r.workers| == |r'.workers|
    && r'.hasClientFunc == r.hasClientFunc && r'.accepted == r.accepted
    && forall v :: 0 <= v < |r.workers| && v != w ==> r'.workers[v] == r.workers[v]
  }

  lemma OthersStillRead(r: Rest, r': Rest, w: WorkerId)
    requires OnlyWorker(r, r', w)
    ensures forall d :: BeingRead(r, d) && !(r.workers[w].pc.Reading? && r.workers[w].pc.conn == d) ==> BeingRead(r', d)
  {
    forall d | BeingRead(r, d) && !(r.workers[w].pc.Reading? && r.workers[w].pc.conn == d) ensures BeingRead(r', d) {
      var v :| 0 <= v < |r.workers| && r.workers[v].pc.Reading? && r.workers[v].pc.conn == d;
      assert r'.workers[v] == r.workers[v];
    }
  }

  /** Worker w has gone on, reading neither before nor after; the connections are as before. */
  lemma MovingKeepsDelivery(r: Rest, r': Rest, w: WorkerId)
    requires DeliveryOk(r) && OnlyWorker(r, r', w) && r'.links == r.links
    requires !r.workers[w].pc.Reading? && !r'.workers[w].pc.Reading?
    ensures DeliveryOk(r')
  {
    OthersStillRead(r, r', w);
    forall v | 0 <= v < |r'.workers| ensures ReaderOk(r', v) {
      assert ReaderOk(r, v);
    }
  }

  /** Worker w starts to read from c, which nobody else is reading from. */
  lemma StartReadingKeepsDelivery(r: Rest, r': Rest, w: WorkerId, c: Conn, events: seq<EpollEvent<Conn>>)
    requires DeliveryOk(r) && OnlyWorker(r, r', w) && r'.links == r.links
    requires !r.workers[w].pc.Reading? && r'.workers[w].pc == Reading(c, START, events)
    requires c in r.links && SingleReaders(r')
    ensures DeliveryOk(r')
  {
    OthersStillRead(r, r', w);
    assert !BeingRead(r, c) by {
      forall v | 0 <= v < |r.workers| ensures !(r.workers[v].pc.Reading? && r.workers[v].pc.conn == c) {
        if v != w {
          assert r'.workers[v] == r.workers[v];
        }
      }
    }
    forall v | 0 <= v < |r'.workers| ensures ReaderOk(r', v) {
      assert ReaderOk(r, v);
    }
  }

  /** Worker w has done something to the connection it is reading from, and to no other. */
  lemma ReadingKeepsDelivery(r: Rest, r': Rest, w: WorkerId, c: Conn)
    requires DeliveryOk(r) && SingleReaders(r) && OnlyWorker(r, r', w)
    requires r.workers[w].pc.Reading? && r.workers[w].pc.conn == c && c in r.links
    requires c in r'.links && r'.links == r.links[c := r'.links[c]]
    requires r'.workers[w].pc.Reading? ==> r'.workers[w].pc.conn == c
    requires LinkOk(r.hasClientFunc, r'.links[c]) && ReaderOk(r', w)
    requires !r'.workers[w].pc.Reading? ==> ReadUpTo(r'.links[c], [])
    ensures DeliveryOk(r')
  {
    OthersStillRead(r, r', w);
    forall v | 0 <= v < |r'.workers| ensures ReaderOk(r', v) {
      assert ReaderOk(r, v);
    }
  }

  lemma ReadBytesShape(r: Rest, w: WorkerId, count: nat, r': Rest)
    requires Step(r, ReadBytes(w, count)) == Some(r')
    ensures OnlyWorker(r, r', w) && r.workers[w].pc.Reading?
    ensures var c, receiver := r.workers[w].pc.conn, r.workers[w].pc.receiver;
            && c in r.links && CanRead(r.links[c], receiver, count)
            && r'.links == r.links[c := LinkAfter(r.hasClientFunc, r.links[c], receiver, count)]
            && var receiver' := ReceiverAfter(r.links[c], receiver, count);
            if receiver'.Complete? then !r'.workers[w].pc.Reading?
            else r'.workers[w].pc == r.workers[w].pc.(receiver := receiver')
  {
  }

  lemma ReadBytesKeepsDelivery(r: Rest, w: WorkerId, count: nat, r': Rest)
    requires DeliveryOk(r) && SingleReaders(r) && Step(r, ReadBytes(w, count)) == Some(r')
    ensures DeliveryOk(r')
  {
    ReadBytesShape(r, w, count, r');
    var c := r.workers[w].pc.conn;
    assert ReaderOk(r, w);
    ReadKeepsLink(r.hasClientFunc, r.links[c], r.workers[w].pc.receiver, count);
    ReadingKeepsDelivery(r, r', w, c);
  }

  lemma ReadFailsKeepsDelivery(r: Rest, w: WorkerId, why: Terminal, r': Rest)
    requires DeliveryOk(r) && SingleReaders(r) && Step(r, ReadFails(w, why)) == Some(r')
    ensures DeliveryOk(r')
  {
    assert ReaderOk(r, w);
    ReadingKeepsDelivery(r, r', w, r.workers[w].pc.conn);
  }

  lemma QueueKeepsDelivery(r: Rest, step: Q.Label, r': Rest)
    requires DeliveryOk(r) && QueueStep(r, step) == Some(r')
    ensures DeliveryOk(r')
  {
    if step.GetCall? || step.GetRet? || step.Free? {
      MovingKeepsDelivery(r, r', step.tid);
    } else {
      forall v | 0 <= v < |r'.workers| ensures ReaderOk(r', v) {
        assert ReaderOk(r, v);
      }
      assert forall d :: BeingRead(r', d) <==> BeingRead(r, d);
    }
  }

  lemma NextEventShape(r: Rest, w: WorkerId, r': Rest)
    requires Step(r, NextEvent(w)) == Some(r')
    ensures OnlyWorker(r, r', w) && r'.links == r.links && !r.workers[w].pc.Reading?
    ensures r'.workers[w].pc.Reading? ==> r'.workers[w].pc.receiver == START
  {
  }

  lemma NextEventKeepsDelivery(r: Rest, w: WorkerId, r': Rest)
    requires DeliveryOk(r) && Step(r, NextEvent(w)) == Some(r') && SingleReaders(r')
    requires w < |r'.workers| && (r'.workers[w].pc.Reading? ==> r'.workers[w].pc.conn in r'.links)
    ensures DeliveryOk(r')
  {
    NextEventShape(r, w, r');
    var pc := r'.workers[w].pc;
    if pc.Reading? {
      StartReadingKeepsDelivery(r, r', w, pc.conn, pc.events);
    } else {
      MovingKeepsDelivery(r, r', w);
    }
  }

  lemma PollingShape(r: Rest, l: Label, r': Rest)
    requires Step(r, l) == Some(r')
    requires l.TakeTurn? || l.EpollAdd? || l.EpollWait? || l.EpollWaitFails?
    ensures OnlyWorker(r, r', l.w) && r'.links == r.links
    ensures !r.workers[l.w].pc.Reading? && !r'.workers[l.w].pc.Reading?
  {
  }

  lemma PollingKeepsDelivery(r: Rest, l: Label, r': Rest)
    requires DeliveryOk(r) && Step(r, l) == Some(r')
    requires l.TakeTurn? || l.EpollAdd? || l.EpollWait? || l.EpollWaitFails?
    ensures DeliveryOk(r')
  {
    PollingShape(r, l, r');
    MovingKeepsDelivery(r, r', l.w);
  }

  lemma DeliveryKept(r: Rest, l: Label, r': Rest)
    requires DeliveryOk(r) && Step(r, l) == Some(r') && SingleReaders(r) && SingleReaders(r')
    requires forall w :: 0 <= w < |r'.workers| && r'.workers[w].pc.Reading? ==> r'.workers[w].pc.conn in r'.links
    ensures DeliveryOk(r')
  {
    match l
    case Queue(step) => QueueKeepsDelivery(r, step, r');
    case ReadBytes(w, count) => ReadBytesKeepsDelivery(r, w, count, r');
    case ReadRetry(w) =>
    case ReadFails(w, why) => ReadFailsKeepsDelivery(r, w, why, r');
    case NextEvent(w) =>
      NextEventShape(r, w, r');
      NextEventKeepsDelivery(r, w, r');
    case StartSend(c, plan) => StartSendKeepsDelivery(r, c, plan, r');
    case ClientWrite(c, result) => ClientWriteKeepsDelivery(r, c, result, r');
    case _ =>
      if OfClient(l) {
        ConnectKeepsDelivery(r, l, r');
      } else {
        PollingKeepsDelivery(r, l, r');
      }
  }
}
