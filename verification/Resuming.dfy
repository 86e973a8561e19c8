/** Hard errors that go away again: when the stream still makes sense behind them. */
module Resuming {
  import opened Sequences
  import opened Framing
  import opened SocketLoops
  import opened Receiving

  /**
   A receive that a hard error cuts off forgets what it had read. If bytes still came after that,
   the next receive would take a payload for a header: here it makes up a message that was never
   sent. So delivery in order needs hard errors to be the end of a connection, or to come between
   two frames.
   */
  lemma ErrorsMustBePermanent(m: Message, script: seq<ReadResult>)
    requires WellFormed(m) && |m.payload| == HEADER_SIZE && PayloadLen(DecodeHeader(m.payload)) == 0
    requires script == [Got(EncodeHeader(m.header)), ReadHard, Got(m.payload)]
    ensures var first := Receive(START, script);
            && first.end == Interrupted(HardError)
            && Receive(START, first.rest).end == Finished(Message(DecodeHeader(m.payload), []))
            && Message(DecodeHeader(m.payload), []) != m
  {
    NoFrameYet(NeedPayload(m.header, []));
    assert EncodeHeader(m.header) + [] == EncodeHeader(m.header);
    OneArrival(EncodeHeader(m.header), script);
    assert script[1..][1..] == [Got(m.payload)];
    OneArrival(m.payload, [Got(m.payload)]);
    assert m.payload[..HEADER_SIZE] == m.payload;
  }

  /** Receiving until the connection ends or a hard error comes. */
  datatype AllReceived = AllReceived(messages: seq<Message>, rest: seq<ReadResult>)

  function ReceiveAll(script: seq<ReadResult>): AllReceived
    decreases |Stream(script)|
  {
    var run := Receive(START, script);
    match run.end
    case Interrupted(_) => AllReceived([], run.rest)
    case Finished(m) =>
      OneReceive(script);
      var later := ReceiveAll(run.rest);
      AllReceived([m] + later.messages, later.rest)
  }

  lemma {:induction false} ReceiveAllParses(script: seq<ReadResult>)
    ensures ReceiveAll(script) == AllReceived(ParseStream(Stream(script)).messages, AfterTerminal(script))
    decreases |Stream(script)|
  {
    OneReceive(script);
    if HasFrame(Stream(script)) {
      ReceiveAllParses(Receive(START, script).rest);
    }
  }

  lemma {:induction false} ReceivedFrames(script: seq<ReadResult>, k: nat)
    requires ReceiveMany(script, k).Some?
    ensures Frames(ReceiveMany(script, k).value) <= Stream(script)
    decreases k
  {
    if k > 0 {
      OneReceive(script);
      FirstFrame(Stream(script));
      ReceivedFrames(Receive(START, script).rest, k - 1);
      var ms := ReceiveMany(script, k).value;
      assert ms[1..] == ReceiveMany(Receive(START, script).rest, k - 1).value;
    }
  }

  /**
   A receive that was cut off has left the stream on a frame boundary if and only if it had not
   taken a single byte.
   */
  lemma CutOffAligned(ms: seq<Message>, script: seq<ReadResult>)
    requires AllWellFormed(ms) && Stream(script) <= Frames(ms)
    requires Receive(START, script).end.Interrupted?
    ensures (exists k :: 0 <= k <= |ms| && Stream(script) == Frames(ms[..k])) <==> Stream(script) == []
  {
    OneReceive(script);
    forall k | 0 < k <= |ms| ensures Stream(script) != Frames(ms[..k]) {
      assert WellFormed(ms[0]);
      FirstMessageOfFrame(ms[0], Frames(ms[..k][1..]));
    }
    assert Frames(ms[..0]) == [];
  }

  /** With nothing taken, the next receives return the messages that follow, in order. */
  lemma ResumesInOrder(ms: seq<Message>, script: seq<ReadResult>)
    requires AllWellFormed(ms) && Stream(script) == [] && Frames(ms) <= Stream(AfterTerminal(script))
    ensures Receive(START, script) == ReceiveRun(Interrupted(TerminalOf(script)), AfterTerminal(script))
    ensures ReceiveMany(Receive(START, script).rest, |ms|) == Some(ms)
  {
    OneReceive(script);
    ReceiveManyFrames(AfterTerminal(script), ms);
  }

  /**
   Receiving up to a hard error, and then going on as if nothing had been read: whatever error cut
   the stream of ms and wherever it did, what comes after it are exactly the messages not received
   yet if and only if the error came between two frames.
   */
  lemma ResumesExactly(ms: seq<Message>, script: seq<ReadResult>)
    requires AllWellFormed(ms) && Frames(ms) == Stream(script) + Stream(AfterTerminal(script))
    ensures var got := ReceiveAll(script);
            && got.messages <= ms
            && (ReceiveMany(got.rest, |ms| - |got.messages|) == Some(ms[|got.messages|..])
                <==> ParseStream(Stream(script)).rest == [])
  {
    var n := |ParseStream(Stream(script)).messages|;
    ReceiveAllParses(script);
    ParseOfPrefix(Stream(script), ms);
    RestOfFrames(ms, Stream(script), Stream(AfterTerminal(script)));
    AlignedIfNothingLost(AfterTerminal(script), ms[n..], ParseStream(Stream(script)).rest);
  }

  lemma AlignedIfNothingLost(script: seq<ReadResult>, ms: seq<Message>, lost: seq<byte>)
    requires AllWellFormed(ms) && Frames(ms) == lost + Stream(script)
    ensures ReceiveMany(script, |ms|) == Some(ms) <==> lost == []
  {
    if lost == [] {
      ReceiveManyFrames(script, ms);
    } else if ReceiveMany(script, |ms|) == Some(ms) {
      ReceivedFrames(script, |ms|);
    }
  }

  lemma RestOfFrames(ms: seq<Message>, s: seq<byte>, later: seq<byte>)
    requires AllWellFormed(ms) && Frames(ms) == s + later && ParseStream(s).messages <= ms
    ensures var p := ParseStream(s); Frames(ms[|p.messages|..]) == p.rest + later
  {
    FramesOfParse(s);
    FramesAfter(ParseStream(s).messages, ms);
    Associate(Frames(ParseStream(s).messages), ParseStream(s).rest, later);
    SameTail(Frames(ParseStream(s).messages), ParseStream(s).rest + later, Frames(ms[|ParseStream(s).messages|..]));
  }

  lemma FramesAfter(ds: seq<Message>, ms: seq<Message>)
    requires ds <= ms
    ensures Frames(ms) == Frames(ds) + Frames(ms[|ds|..])
  {
    assert ms == ds + ms[|ds|..];
    FramesAppend(ds, ms[|ds|..]);
  }

  lemma SameTail(a: seq<byte>, b: seq<byte>, c: seq<byte>)
    requires a + b == a + c
    ensures b == c
  {
    assert b == (a + b)[|a|..] && c == (a + c)[|a|..];
  }

  lemma OneArrival(bytes: seq<byte>, script: seq<ReadResult>)
    requires script != [] && script[0] == Got(bytes) && (script[1..] == [] || script[1] == ReadHard)
    ensures ReceivedOf(bytes, 0, script, Receive(START, script))
    ensures Stream(script) == bytes
  {
    assert Stream(script) == bytes + Stream(script[1..]) == bytes + [] == bytes;
    assert START.Consumed() + bytes == bytes;
    ReceiveMeaning(START, script);
  }
}
