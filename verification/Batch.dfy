/** What one batch of epoll events comes to, given what each connection answers to reads. */
module Batch {
  import opened Sequences
  import opened Framing
  import opened SocketLoops
  import opened Epoll
  import opened Receiving

  /** PollAgain is the goto out of the batch; StillReading means the read loop has not ended. */
  datatype Progress = Handled | PollAgain | StillReading

  /** The messages a batch yields, the connections closed in it, and how the loop over it is left. */
  datatype BatchRun<C> = BatchRun(messages: seq<Message>, closed: seq<C>, progress: Progress)

  function After(why: Terminal): Progress {
    if why == Open then StillReading else PollAgain
  }

  function Together<C>(a: BatchRun<C>, b: BatchRun<C>): BatchRun<C> {
    BatchRun(a.messages + b.messages, a.closed + b.closed, b.progress)
  }

  /** One event, on a connection that answers reads with the given script. */
  function EventRun<C>(event: EpollEvent<C>, script: seq<ReadResult>): BatchRun<C> {
    if event.kind == Broken then BatchRun([], [event.conn], Handled) else
    match Receive(START, script).end
    case Finished(m) => BatchRun([m], [], Handled)
    case Interrupted(why) => BatchRun([], [], After(why))
  }

  /**
   The events from i on. A connection that ends in the middle of a message ends the whole batch:
   the events behind it are not looked at.
   */
  function BatchFrom<C>(events: seq<EpollEvent<C>>, scripts: seq<seq<ReadResult>>, i: nat): BatchRun<C>
    requires |scripts| == |events| && i <= |events|
    decreases |events| - i
  {
    if i == |events| then BatchRun([], [], Handled) else
    var one := EventRun(events[i], scripts[i]);
    if one.progress != Handled then one else
    Together(one, BatchFrom(events, scripts, i + 1))
  }

  /** What the events before i brought; the rest of the batch brings the others. */
  ghost predicate SoFar<C>(events: seq<EpollEvent<C>>, scripts: seq<seq<ReadResult>>, i: nat, got: BatchRun<C>)
    requires |scripts| == |events| && i <= |events|
  {
    BatchFrom(events, scripts, 0) == Together(got, BatchFrom(events, scripts, i))
  }

  lemma SoFarNext<C>(events: seq<EpollEvent<C>>, scripts: seq<seq<ReadResult>>, i: nat, got: BatchRun<C>)
    requires |scripts| == |events| && i < |events| && SoFar(events, scripts, i, got)
    ensures var one := EventRun(events[i], scripts[i]);
            if one.progress == Handled then SoFar(events, scripts, i + 1, Together(got, one))
            else BatchFrom(events, scripts, 0) == Together(got, one)
  {
    var one, later := EventRun(events[i], scripts[i]), BatchFrom(events, scripts, i + 1);
    Associate(got.messages, one.messages, later.messages);
    Associate(got.closed, one.closed, later.closed);
  }

  /** epoll reports a connection at most once in a batch. */
  ghost predicate Distinct<C>(events: seq<EpollEvent<C>>) {
    forall i, j :: 0 <= i < j < |events| ==> events[i].conn != events[j].conn
  }

  // ---------------------------------------------------------------- in terms of kinds and streams alone

  /** A readable event on a connection that ends, or is still silent, before a whole message is there. */
  predicate Stops<C>(event: EpollEvent<C>, script: seq<ReadResult>) {
    event.kind == Readable && !HasFrame(Stream(script))
  }

  /** The first messages of the connections with readable events before j, in order. */
  function MessagesBefore<C>(events: seq<EpollEvent<C>>, scripts: seq<seq<ReadResult>>, j: nat): seq<Message>
    requires j <= |events| == |scripts|
  {
    if j == 0 then [] else
    var s := Stream(scripts[j - 1]);
    MessagesBefore(events, scripts, j - 1)
    + if events[j - 1].kind == Readable && HasFrame(s) then [FirstMessage(s)] else []
  }

  /** The connections with broken events before j, in order. */
  function BrokenBefore<C>(events: seq<EpollEvent<C>>, j: nat): seq<C>
    requires j <= |events|
  {
    if j == 0 then [] else
    BrokenBefore(events, j - 1) + if events[j - 1].kind == Broken then [events[j - 1].conn] else []
  }

  /** The first event that stops the batch, or its length. */
  lemma {:induction false} FirstStop<C>(events: seq<EpollEvent<C>>, scripts: seq<seq<ReadResult>>, n: nat) returns (j: nat)
    requires n <= |events| == |scripts|
    ensures j <= n && (forall i :: 0 <= i < j ==> !Stops(events[i], scripts[i]))
    ensures j < n ==> Stops(events[j], scripts[j])
  {
    if n == 0 {
      j := 0;
    } else {
      j := FirstStop(events, scripts, n - 1);
      if j == n - 1 && !Stops(events[j], scripts[j]) {
        j := n;
      }
    }
  }

  lemma EventMeaning<C>(event: EpollEvent<C>, script: seq<ReadResult>)
    ensures EventRun(event, script)
         == if event.kind == Broken then BatchRun([], [event.conn], Handled)
            else if HasFrame(Stream(script)) then BatchRun([FirstMessage(Stream(script))], [], Handled)
            else BatchRun([], [], if TerminalOf(script) == Open then StillReading else PollAgain)
  {
    OneReceive(script);
  }

  lemma {:induction false} SoFarBefore<C>(events: seq<EpollEvent<C>>, scripts: seq<seq<ReadResult>>, j: nat)
    requires j <= |events| == |scripts| && forall i :: 0 <= i < j ==> !Stops(events[i], scripts[i])
    ensures SoFar(events, scripts, j, BatchRun(MessagesBefore(events, scripts, j), BrokenBefore(events, j), Handled))
  {
    if j == 0 {
      var all := BatchFrom(events, scripts, 0);
      assert [] + all.messages == all.messages && [] + all.closed == all.closed;
    } else {
      var k := j - 1;
      SoFarBefore(events, scripts, k);
      EventMeaning(events[k], scripts[k]);
      assert !Stops(events[k], scripts[k]);
      SoFarNext(events, scripts, k, BatchRun(MessagesBefore(events, scripts, k), BrokenBefore(events, k), Handled));
    }
  }

  /**
   A batch delivers the first message of each readable connection and closes each broken one, in the
   order of the events, up to the first readable connection that does not hold a whole message; only
   if there is none is it handled to its end.
   */
  lemma BatchMeaning<C>(events: seq<EpollEvent<C>>, scripts: seq<seq<ReadResult>>, j: nat)
    requires j <= |events| == |scripts| && forall i :: 0 <= i < j ==> !Stops(events[i], scripts[i])
    requires j < |events| ==> Stops(events[j], scripts[j])
    ensures var run := BatchFrom(events, scripts, 0);
            && run.messages == MessagesBefore(events, scripts, j)
            && run.closed == BrokenBefore(events, j)
            && (run.progress == Handled <==> j == |events|)
            && (run.progress == StillReading <==> j < |events| && TerminalOf(scripts[j]) == Open)
  {
    SoFarBefore(events, scripts, j);
    var got := BatchRun(MessagesBefore(events, scripts, j), BrokenBefore(events, j), Handled);
    if j < |events| {
      EventMeaning(events[j], scripts[j]);
    }
    assert got.messages + [] == got.messages && got.closed + [] == got.closed;
  }
}
