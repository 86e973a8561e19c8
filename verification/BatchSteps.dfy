/**
 A worker of the server machine does with a batch what the event loop does: its single steps, over
 any fragmentation of what the connections answer, are one receive for each readable event.
 */
module BatchSteps {
  import opened Sequences
  import opened Framing
  import opened SocketLoops
  import opened Receiving
  import opened Epoll
  import opened Batch
  import opened Server

  /** The steps ls, one after the other; None if one of them is refused. */
  function Exec(r: Rest, ls: seq<Label>): Option<Rest>
    decreases |ls|
  {
    if ls == [] then Some(r) else
    match Step(r, ls[0])
    case None => None
    case Some(r') => Exec(r', ls[1..])
  }

  lemma {:induction false} ExecAppend(r: Rest, ls: seq<Label>, more: seq<Label>)
    ensures Exec(r, ls + more) == match Exec(r, ls) case None => None case Some(r') => Exec(r', more)
    decreases |ls|
  {
    if ls == [] {
      assert ls + more == more;
    } else {
      assert (ls + more)[1..] == ls[1..] + more;
      if Step(r, ls[0]).Some? {
        ExecAppend(Step(r, ls[0]).value, ls[1..], more);
      }
    }
  }

  // ---------------------------------------------------------------- one message

  /** What the connection can still answer: the bytes are on its wire, EOF comes only behind the last of them. */
  predicate CanAnswer(k: Link, script: seq<ReadResult>) {
    && !k.readDead && k.read <= |k.wire|
    && Stream(script) <= k.wire[k.read..]
    && (TerminalOf(script) == Eof ==> k.closedByPeer && Stream(script) == k.wire[k.read..])
  }

  /** The steps of a worker's read loops, how they end, and how many bytes they take. */
  datatype Reads = Reads(labels: seq<Label>, end: ReceiveEnd, taken: nat)

  /** The read loops of worker w for these answers, from a receive that has come to r. */
  function ReadsOf(w: WorkerId, r: Receiver, script: seq<ReadResult>): Reads
    requires r.Valid()
    decreases Rank(r), |script|
  {
    if r.Complete? then Reads([], Finished(r.message), 0)
    else if script == [] then Reads([], Interrupted(Open), 0)
    else match script[0]
      case ReadEof => Reads([ReadFails(w, Eof)], Interrupted(Eof), 0)
      case ReadHard => Reads([ReadFails(w, HardError)], Interrupted(HardError), 0)
      case ReadAgain => First(ReadRetry(w), 0, ReadsOf(w, r, script[1..]))
      case ReadIntr => First(ReadRetry(w), 0, ReadsOf(w, r, script[1..]))
      case Got(bytes) =>
        if bytes == [] then First(ReadRetry(w), 0, ReadsOf(w, r, script[1..])) else
        var n := Min(|bytes|, r.Wanted());
        FeedConsumes(r, bytes[..n]);
        First(ReadBytes(w, n), n, ReadsOf(w, r.Feed(bytes[..n]), Later(script, n)))
  }

  function First(l: Label, n: nat, later: Reads): Reads {
    Reads([l] + later.labels, later.end, n + later.taken)
  }

  function Later(script: seq<ReadResult>, n: nat): seq<ReadResult>
    requires script != [] && script[0].Got? && n <= |script[0].bytes|
  {
    if n < |script[0].bytes| then [Got(script[0].bytes[n..])] + script[1..] else script[1..]
  }

  /** They end as a receive ends, and take what the receive takes. */
  lemma {:induction false} ReadsAreReceive(w: WorkerId, r: Receiver, script: seq<ReadResult>)
    requires r.Valid()
    ensures ReadsOf(w, r, script).end == Receive(r, script).end
    decreases Rank(r), |script|
  {
    if !r.Complete? && script != [] && !script[0].ReadEof? && !script[0].ReadHard? {
      if script[0].Got? && script[0].bytes != [] {
        var n := Min(|script[0].bytes|, r.Wanted());
        FeedConsumes(r, script[0].bytes[..n]);
        ReadsAreReceive(w, r.Feed(script[0].bytes[..n]), Later(script, n));
      } else {
        ReadsAreReceive(w, r, script[1..]);
      }
    }
  }

  /** The connection after a receive that ended so, having taken n bytes. */
  function LinkAfterReceive(hasClientFunc: bool, k: Link, end: ReceiveEnd, n: nat): Link {
    match end
    case Finished(m) =>
      k.(read := k.read + n, decoded := k.decoded + [m],
         delivered := if hasClientFunc then k.delivered + [m] else k.delivered)
    case Interrupted(_) => k.(read := k.read + n, readDead := true)
  }

  predicate IsReading(r: Rest, w: WorkerId, c: Conn, receiver: Receiver, events: seq<EpollEvent<Conn>>) {
    w < |r.workers| && r.workers[w].pc == Reading(c, receiver, events) && c in r.links
  }

  lemma AnswerOnWire(k: Link, script: seq<ReadResult>, n: nat)
    requires CanAnswer(k, script) && script != [] && script[0].Got? && 0 < n <= |script[0].bytes|
    ensures k.read + n <= |k.wire| && k.wire[k.read..k.read + n] == script[0].bytes[..n]
    ensures CanAnswer(k.(read := k.read + n), Later(script, n))
  {
    var bytes, unread := script[0].bytes, k.wire[k.read..];
    LaterStream(script, n, Later(script, n));
    assert Stream(script) == unread[..|Stream(script)|];
    assert unread[..n] == bytes[..n] && unread[..n] == k.wire[k.read..k.read + n];
    assert k.wire[k.read + n..] == unread[n..];
  }

  /** Where the worker goes on after a receive that has ended. */
  function PcAfter(end: ReceiveEnd, events: seq<EpollEvent<Conn>>): WorkerPc {
    if end.Finished? then InBatch(events) else AtPoll
  }

  lemma Overwrite(r: Rest, w: WorkerId, c: Conn, pc: WorkerPc, k: Link, pc': WorkerPc, k': Link)
    requires w < |r.workers|
    ensures SetLink(Goto(SetLink(Goto(r, w, pc), c, k), w, pc'), c, k') == SetLink(Goto(r, w, pc'), c, k')
  {
  }

  /** The state after a read of n bytes that brought the receive to receiver'. */
  function AfterRead(r: Rest, w: WorkerId, c: Conn, receiver': Receiver, events: seq<EpollEvent<Conn>>, n: nat): Rest
    requires w < |r.workers| && c in r.links
  {
    var k := r.links[c];
    if receiver'.Complete?
    then SetLink(Goto(r, w, InBatch(events)), c, LinkAfterReceive(r.hasClientFunc, k, Finished(receiver'.message), n))
    else SetLink(Goto(r, w, Reading(c, receiver', events)), c, k.(read := k.read + n))
  }

  lemma OneRead(r: Rest, w: WorkerId, c: Conn, receiver: Receiver, events: seq<EpollEvent<Conn>>, bytes: seq<byte>)
    requires IsReading(r, w, c, receiver, events) && receiver.Valid() && 0 < |bytes| <= receiver.Wanted()
    requires var k := r.links[c]; !k.readDead && k.read + |bytes| <= |k.wire| && k.wire[k.read..k.read + |bytes|] == bytes
    ensures Step(r, ReadBytes(w, |bytes|)) == Some(AfterRead(r, w, c, receiver.Feed(bytes), events, |bytes|))
  {
  }

  lemma ExecNext(r: Rest, l: Label, r': Rest, ls: seq<Label>)
    requires Step(r, l) == Some(r')
    ensures Exec(r, [l] + ls) == Exec(r', ls)
  {
    assert ([l] + ls)[1..] == ls;
  }

  lemma OneFailure(r: Rest, w: WorkerId, c: Conn, receiver: Receiver, events: seq<EpollEvent<Conn>>, why: Terminal)
    requires IsReading(r, w, c, receiver, events) && why != Open
    requires why == Eof ==> var k := r.links[c]; k.closedByPeer && k.read == |k.wire|
    ensures Step(r, ReadFails(w, why)) == Some(SetLink(Goto(r, w, AtPoll), c, r.links[c].(readDead := true)))
  {
  }

  lemma ExecFails(r: Rest, w: WorkerId, c: Conn, receiver: Receiver, events: seq<EpollEvent<Conn>>, why: Terminal)
    requires IsReading(r, w, c, receiver, events) && why != Open
    requires why == Eof ==> var k := r.links[c]; k.closedByPeer && k.read == |k.wire|
    ensures Exec(r, [ReadFails(w, why)]) == Some(SetLink(Goto(r, w, AtPoll), c, r.links[c].(readDead := true)))
  {
    OneFailure(r, w, c, receiver, events, why);
    ExecNext(r, ReadFails(w, why), SetLink(Goto(r, w, AtPoll), c, r.links[c].(readDead := true)), []);
  }

  lemma ExecRetry(r: Rest, w: WorkerId, ls: seq<Label>)
    requires w < |r.workers| && r.workers[w].pc.Reading?
    ensures Exec(r, [ReadRetry(w)] + ls) == Exec(r, ls)
  {
    ExecNext(r, ReadRetry(w), r, ls);
  }

  /** A receive of the machine: the state in which it leaves the worker and the connection. */
  function AfterReceive(r: Rest, w: WorkerId, c: Conn, events: seq<EpollEvent<Conn>>, end: ReceiveEnd, n: nat): Rest
    requires w < |r.workers| && c in r.links
  {
    SetLink(Goto(r, w, PcAfter(end, events)), c, LinkAfterReceive(r.hasClientFunc, r.links[c], end, n))
  }

  lemma AfterReadAndReceive(r: Rest, w: WorkerId, c: Conn, receiver': Receiver, events: seq<EpollEvent<Conn>>, n: nat,
                            end: ReceiveEnd, more: nat)
    requires w < |r.workers| && c in r.links && !receiver'.Complete?
    ensures AfterReceive(AfterRead(r, w, c, receiver', events, n), w, c, events, end, more)
         == AfterReceive(r, w, c, events, end, n + more)
  {
    Overwrite(r, w, c, Reading(c, receiver', events), r.links[c].(read := r.links[c].read + n), PcAfter(end, events),
              LinkAfterReceive(r.hasClientFunc, r.links[c], end, n + more));
  }

  /** The steps bring the worker and the connection where the receive ends. */
  ghost predicate LeadTo(r: Rest, w: WorkerId, c: Conn, events: seq<EpollEvent<Conn>>, plan: Reads)
    requires w < |r.workers| && c in r.links
  {
    Exec(r, plan.labels) == Some(AfterReceive(r, w, c, events, plan.end, plan.taken))
  }

  /**
   The read loops of a worker of the machine, over any fragmentation and with any retries between,
   are one receive: a message is decoded and delivered and the worker goes on with its batch, or the
   connection is dead and the worker polls again.
   */
  lemma {:induction false} ReadingIsReceive(
    r: Rest, w: WorkerId, c: Conn, receiver: Receiver, events: seq<EpollEvent<Conn>>, script: seq<ReadResult>)
    requires IsReading(r, w, c, receiver, events) && receiver.Valid() && !receiver.Complete?
    requires CanAnswer(r.links[c], script) && ReadsOf(w, receiver, script).end != Interrupted(Open)
    ensures LeadTo(r, w, c, events, ReadsOf(w, receiver, script))
    decreases Rank(receiver), |script|
  {
    if script[0].ReadEof? {
      ExecFails(r, w, c, receiver, events, Eof);
    } else if script[0].ReadHard? {
      ExecFails(r, w, c, receiver, events, HardError);
    } else if script[0].Got? && script[0].bytes != [] {
      var n := Min(|script[0].bytes|, receiver.Wanted());
      FeedConsumes(receiver, script[0].bytes[..n]);
      var receiver', r1 := GotStep(r, w, c, receiver, events, script, n);
      if !receiver'.Complete? {
        ReadingIsReceive(r1, w, c, receiver', events, Later(script, n));
      } else {
        CompleteAtOnce(r, w, c, receiver', events, n);
      }
      ReadFirst(r, w, c, receiver', events, n, ReadsOf(w, receiver', Later(script, n)));
    } else {
      ExecRetry(r, w, ReadsOf(w, receiver, script[1..]).labels);
      ReadingIsReceive(r, w, c, receiver, events, script[1..]);
    }
  }

  lemma GotStep(r: Rest, w: WorkerId, c: Conn, receiver: Receiver, events: seq<EpollEvent<Conn>>, script: seq<ReadResult>, n: nat)
    returns (receiver': Receiver, r1: Rest)
    requires IsReading(r, w, c, receiver, events) && receiver.Valid() && !receiver.Complete?
    requires CanAnswer(r.links[c], script) && script != [] && script[0].Got? && script[0].bytes != []
    requires n == Min(|script[0].bytes|, receiver.Wanted()) && 0 < n
    ensures receiver' == receiver.Feed(script[0].bytes[..n])
    ensures r1 == AfterRead(r, w, c, receiver', events, n) && Step(r, ReadBytes(w, n)) == Some(r1)
    ensures !receiver'.Complete? ==> IsReading(r1, w, c, receiver', events) && CanAnswer(r1.links[c], Later(script, n))
  {
    var bytes := script[0].bytes[..n];
    AnswerOnWire(r.links[c], script, n);
    assert |bytes| == n;
    OneRead(r, w, c, receiver, events, bytes);
    receiver' := receiver.Feed(bytes);
    r1 := AfterRead(r, w, c, receiver', events, n);
    if !receiver'.Complete? {
      ReadsOn(r, w, c, receiver', events, n);
    }
  }

  lemma ReadsOn(r: Rest, w: WorkerId, c: Conn, receiver': Receiver, events: seq<EpollEvent<Conn>>, n: nat)
    requires w < |r.workers| && c in r.links && !receiver'.Complete?
    ensures var r1 := AfterRead(r, w, c, receiver', events, n);
            IsReading(r1, w, c, receiver', events) && r1.links[c] == r.links[c].(read := r.links[c].read + n)
  {
  }

  lemma CompleteAtOnce(r: Rest, w: WorkerId, c: Conn, receiver': Receiver, events: seq<EpollEvent<Conn>>, n: nat)
    requires w < |r.workers| && c in r.links && receiver'.Complete?
    ensures var r1 := AfterRead(r, w, c, receiver', events, n);
            r1 == AfterReceive(r, w, c, events, Finished(receiver'.message), n)
  {
  }

  lemma ReadFirst(r: Rest, w: WorkerId, c: Conn, receiver': Receiver, events: seq<EpollEvent<Conn>>, n: nat, later: Reads)
    requires w < |r.workers| && c in r.links
    requires Step(r, ReadBytes(w, n)) == Some(AfterRead(r, w, c, receiver', events, n))
    requires if receiver'.Complete? then later == Reads([], Finished(receiver'.message), 0)
             else LeadTo(AfterRead(r, w, c, receiver', events, n), w, c, events, later)
    ensures LeadTo(r, w, c, events, First(ReadBytes(w, n), n, later))
  {
    ExecNext(r, ReadBytes(w, n), AfterRead(r, w, c, receiver', events, n), later.labels);
    if receiver'.Complete? {
      CompleteAtOnce(r, w, c, receiver', events, n);
    } else {
      AfterReadAndReceive(r, w, c, receiver', events, n, later.end, later.taken);
    }
  }

  /** A finished receive has taken exactly its frame, one that was cut off all that came. */
  lemma {:induction false} TakenMeaning(w: WorkerId, r: Receiver, script: seq<ReadResult>)
    requires r.Valid()
    ensures var plan := ReadsOf(w, r, script);
            match plan.end
            case Finished(m) => |r.Consumed()| + plan.taken == |Frame(m)|
            case Interrupted(_) => plan.taken == |Stream(script)|
    decreases Rank(r), |script|
  {
    if !r.Complete? && script != [] && !script[0].ReadEof? && !script[0].ReadHard? {
      if script[0].Got? && script[0].bytes != [] {
        var n := Min(|script[0].bytes|, r.Wanted());
        FeedConsumes(r, script[0].bytes[..n]);
        LaterStream(script, n, Later(script, n));
        TakenMeaning(w, r.Feed(script[0].bytes[..n]), Later(script, n));
      } else {
        TakenMeaning(w, r, script[1..]);
      }
    }
  }

  // ---------------------------------------------------------------- a batch

  /** The steps of worker w for the events from i on, where connection i answers with script i. */
  function BatchLabels(w: WorkerId, events: seq<EpollEvent<Conn>>, scripts: seq<seq<ReadResult>>, i: nat): seq<Label>
    requires i <= |events| == |scripts|
    decreases |events| - i
  {
    if i == |events| then [NextEvent(w)]
    else if events[i].kind == Broken then [NextEvent(w)] + BatchLabels(w, events, scripts, i + 1)
    else
      var plan := ReadsOf(w, START, scripts[i]);
      [NextEvent(w)] + (plan.labels + if plan.end.Finished? then BatchLabels(w, events, scripts, i + 1) else [])
  }

  /** What is delivered on connection c from event i on. */
  function DeliveredOn(events: seq<EpollEvent<Conn>>, scripts: seq<seq<ReadResult>>, i: nat, c: Conn): seq<Message>
    requires i <= |events| == |scripts|
    decreases |events| - i
  {
    if i == |events| then [] else
    var one := EventRun(events[i], scripts[i]);
    (if events[i].conn == c then one.messages else [])
    + if one.progress == Handled then DeliveredOn(events, scripts, i + 1, c) else []
  }

  /** Worker w is in the batch at event i, and its connections can answer as the scripts say. */
  ghost predicate InBatchAt(r: Rest, w: WorkerId, events: seq<EpollEvent<Conn>>, scripts: seq<seq<ReadResult>>, i: nat)
    requires i <= |events| == |scripts|
  {
    && w < |r.workers| && r.workers[w].pc == InBatch(events[i..]) && Distinct(events)
    && forall j :: i <= j < |events| ==> events[j].conn in r.links && CanAnswer(r.links[events[j].conn], scripts[j])
  }

  function AfterBroken(r: Rest, w: WorkerId, c: Conn, events: seq<EpollEvent<Conn>>): Rest
    requires w < |r.workers|
  {
    SetWorker(r, w, r.workers[w].(pc := InBatch(events), registered := r.workers[w].registered - {c}))
    .(closed := r.closed + {c})
  }

  lemma OneEvent(r: Rest, w: WorkerId, events: seq<EpollEvent<Conn>>)
    requires w < |r.workers| && r.workers[w].pc == InBatch(events)
    ensures Step(r, NextEvent(w)) == Some(
              if events == [] then Goto(r, w, AtTop)
              else if events[0].kind == Broken then AfterBroken(r, w, events[0].conn, events[1..])
              else Goto(r, w, Reading(events[0].conn, START, events[1..])))
  {
  }

  lemma ReadableEvent(r: Rest, w: WorkerId, events: seq<EpollEvent<Conn>>, script: seq<ReadResult>, more: seq<Label>)
    requires w < |r.workers| && r.workers[w].pc == InBatch(events) && events != [] && events[0].kind == Readable
    requires events[0].conn in r.links && CanAnswer(r.links[events[0].conn], script)
    requires ReadsOf(w, START, script).end != Interrupted(Open)
    ensures var c, plan := events[0].conn, ReadsOf(w, START, script);
            Exec(r, [NextEvent(w)] + (plan.labels + more))
            == Exec(AfterReceive(r, w, c, events[1..], plan.end, plan.taken), more)
  {
    var c, plan := events[0].conn, ReadsOf(w, START, script);
    var r1 := Goto(r, w, Reading(c, START, events[1..]));
    OneEvent(r, w, events);
    ExecNext(r, NextEvent(w), r1, plan.labels + more);
    ReadingIsReceive(r1, w, c, START, events[1..], script);
    ExecAppend(r1, plan.labels, more);
    assert SetLink(r, c, r.links[c]) == r;
    Overwrite(r, w, c, Reading(c, START, events[1..]), r.links[c], PcAfter(plan.end, events[1..]),
              LinkAfterReceive(r.hasClientFunc, r.links[c], plan.end, plan.taken));
  }

  /** The state at the end of a batch: where the worker is, what is closed, and what was delivered on each connection. */
  ghost predicate BatchDone(r: Rest, w: WorkerId, events: seq<EpollEvent<Conn>>, scripts: seq<seq<ReadResult>>, i: nat, r': Rest)
    requires w < |r.workers| && i <= |events| == |scripts|
  {
    var run := BatchFrom(events, scripts, i);
    && |r'.workers| == |r.workers|
    && r'.workers[w].pc == (if run.progress == Handled then AtTop else AtPoll)
    && r'.closed == r.closed + (set c | c in run.closed)
    && r'.workers[w].registered == r.workers[w].registered - (set c | c in run.closed)
    && r'.links.Keys == r.links.Keys
    && forall c :: c in r.links ==>
         r'.links[c].delivered
         == r.links[c].delivered + if r.hasClientFunc then DeliveredOn(events, scripts, i, c) else []
  }

  lemma DoneAtEnd(r: Rest, w: WorkerId, events: seq<EpollEvent<Conn>>, scripts: seq<seq<ReadResult>>)
    requires w < |r.workers| && |events| == |scripts|
    ensures BatchDone(r, w, events, scripts, |events|, Goto(r, w, AtTop))
  {
  }

  lemma DoneAfterBroken(r: Rest, w: WorkerId, events: seq<EpollEvent<Conn>>, scripts: seq<seq<ReadResult>>, i: nat, r': Rest)
    requires w < |r.workers| && i < |events| == |scripts| && events[i].kind == Broken
    requires BatchDone(AfterBroken(r, w, events[i].conn, events[i + 1..]), w, events, scripts, i + 1, r')
    ensures BatchDone(r, w, events, scripts, i, r')
  {
    var c, run, later := events[i].conn, BatchFrom(events, scripts, i), BatchFrom(events, scripts, i + 1);
    assert run.closed == [c] + later.closed;
    assert (set x | x in run.closed) == {c} + (set x | x in later.closed);
    forall x | x in r.links ensures DeliveredOn(events, scripts, i, x) == DeliveredOn(events, scripts, i + 1, x) {
      assert [] + DeliveredOn(events, scripts, i + 1, x) == DeliveredOn(events, scripts, i + 1, x);
    }
  }

  lemma DeliveredNext(events: seq<EpollEvent<Conn>>, scripts: seq<seq<ReadResult>>, i: nat, m: Message, c: Conn)
    requires i < |events| == |scripts| && events[i].kind == Readable && Receive(START, scripts[i]).end == Finished(m)
    ensures DeliveredOn(events, scripts, i, c)
         == (if events[i].conn == c then [m] else []) + DeliveredOn(events, scripts, i + 1, c)
    ensures BatchFrom(events, scripts, i).closed == BatchFrom(events, scripts, i + 1).closed
    ensures BatchFrom(events, scripts, i).progress == BatchFrom(events, scripts, i + 1).progress
  {
    assert [] + BatchFrom(events, scripts, i + 1).closed == BatchFrom(events, scripts, i + 1).closed;
  }

  lemma DoneAfterMessage(r: Rest, w: WorkerId, events: seq<EpollEvent<Conn>>, scripts: seq<seq<ReadResult>>, i: nat,
                         m: Message, n: nat, r': Rest)
    requires w < |r.workers| && i < |events| == |scripts| && events[i].kind == Readable && events[i].conn in r.links
    requires Receive(START, scripts[i]).end == Finished(m)
    requires BatchDone(AfterReceive(r, w, events[i].conn, events[i + 1..], Finished(m), n), w, events, scripts, i + 1, r')
    ensures BatchDone(r, w, events, scripts, i, r')
  {
    var r1 := AfterReceive(r, w, events[i].conn, events[i + 1..], Finished(m), n);
    DeliveredNext(events, scripts, i, m, events[i].conn);
    forall c | c in r.links
      ensures r'.links[c].delivered
           == r.links[c].delivered + if r.hasClientFunc then DeliveredOn(events, scripts, i, c) else []
    {
      DeliveredNext(events, scripts, i, m, c);
      Associate(r.links[c].delivered, if events[i].conn == c then [m] else [], DeliveredOn(events, scripts, i + 1, c));
      assert r1.links[c].delivered
          == r.links[c].delivered + if r.hasClientFunc && events[i].conn == c then [m] else [];
    }
  }

  lemma DoneAtStop(r: Rest, w: WorkerId, events: seq<EpollEvent<Conn>>, scripts: seq<seq<ReadResult>>, i: nat,
                   why: Terminal, n: nat)
    requires w < |r.workers| && i < |events| == |scripts| && events[i].kind == Readable && events[i].conn in r.links
    requires Receive(START, scripts[i]).end == Interrupted(why) && why != Open
    ensures BatchDone(r, w, events, scripts, i, AfterReceive(r, w, events[i].conn, events[i + 1..], Interrupted(why), n))
  {
  }

  lemma InBatchAfterBroken(r: Rest, w: WorkerId, events: seq<EpollEvent<Conn>>, scripts: seq<seq<ReadResult>>, i: nat)
    requires i < |events| == |scripts| && InBatchAt(r, w, events, scripts, i)
    ensures InBatchAt(AfterBroken(r, w, events[i].conn, events[i + 1..]), w, events, scripts, i + 1)
  {
  }

  lemma InBatchAfterMessage(r: Rest, w: WorkerId, events: seq<EpollEvent<Conn>>, scripts: seq<seq<ReadResult>>, i: nat,
                            m: Message, n: nat)
    requires i < |events| == |scripts| && InBatchAt(r, w, events, scripts, i)
    ensures InBatchAt(AfterReceive(r, w, events[i].conn, events[i + 1..], Finished(m), n), w, events, scripts, i + 1)
  {
  }

  /**
   A worker of the machine, left alone with a batch, does with it what the event loop does. In any
   fragmentation of the answers and with any retries: it delivers on each connection the message the
   batch has for it, closes the broken ones, and ends at the top of its loop, or at epoll_wait behind
   the first connection that ended.
   */
  lemma {:induction false} BatchIsEventLoop(
    r: Rest, w: WorkerId, events: seq<EpollEvent<Conn>>, scripts: seq<seq<ReadResult>>, i: nat) returns (r': Rest)
    requires i <= |events| == |scripts| && InBatchAt(r, w, events, scripts, i)
    requires BatchFrom(events, scripts, i).progress != Batch.StillReading
    ensures Exec(r, BatchLabels(w, events, scripts, i)) == Some(r')
    ensures BatchDone(r, w, events, scripts, i, r')
    decreases |events| - i
  {
    OneEvent(r, w, events[i..]);
    if i == |events| {
      r' := Goto(r, w, AtTop);
      ExecNext(r, NextEvent(w), r', []);
      DoneAtEnd(r, w, events, scripts);
    } else if events[i].kind == Broken {
      r' := BrokenFirst(r, w, events, scripts, i);
    } else {
      r' := ReadableFirst(r, w, events, scripts, i);
    }
  }

  lemma {:induction false} BrokenFirst(
    r: Rest, w: WorkerId, events: seq<EpollEvent<Conn>>, scripts: seq<seq<ReadResult>>, i: nat) returns (r': Rest)
    requires i < |events| == |scripts| && InBatchAt(r, w, events, scripts, i) && events[i].kind == Broken
    requires BatchFrom(events, scripts, i).progress != Batch.StillReading
    ensures Exec(r, BatchLabels(w, events, scripts, i)) == Some(r')
    ensures BatchDone(r, w, events, scripts, i, r')
    decreases |events| - i, 0
  {
    var r1 := AfterBroken(r, w, events[i].conn, events[i + 1..]);
    OneEvent(r, w, events[i..]);
    assert events[i..][1..] == events[i + 1..];
    ExecNext(r, NextEvent(w), r1, BatchLabels(w, events, scripts, i + 1));
    InBatchAfterBroken(r, w, events, scripts, i);
    r' := BatchIsEventLoop(r1, w, events, scripts, i + 1);
    DoneAfterBroken(r, w, events, scripts, i, r');
  }

  lemma {:induction false} ReadableFirst(
    r: Rest, w: WorkerId, events: seq<EpollEvent<Conn>>, scripts: seq<seq<ReadResult>>, i: nat) returns (r': Rest)
    requires i < |events| == |scripts| && InBatchAt(r, w, events, scripts, i) && events[i].kind == Readable
    requires BatchFrom(events, scripts, i).progress != Batch.StillReading
    ensures Exec(r, BatchLabels(w, events, scripts, i)) == Some(r')
    ensures BatchDone(r, w, events, scripts, i, r')
    decreases |events| - i, 0
  {
    var c, plan := events[i].conn, ReadsOf(w, START, scripts[i]);
    var more := if plan.end.Finished? then BatchLabels(w, events, scripts, i + 1) else [];
    assert events[i..][1..] == events[i + 1..];
    ReadsAreReceive(w, START, scripts[i]);
    ReadableEvent(r, w, events[i..], scripts[i], more);
    r' := AfterReceive(r, w, c, events[i + 1..], plan.end, plan.taken);
    match plan.end
    case Interrupted(why) => DoneAtStop(r, w, events, scripts, i, why, plan.taken);
    case Finished(m) =>
      InBatchAfterMessage(r, w, events, scripts, i, m, plan.taken);
      r' := BatchIsEventLoop(r', w, events, scripts, i + 1);
      DoneAfterMessage(r, w, events, scripts, i, m, plan.taken, r');
  }
}
