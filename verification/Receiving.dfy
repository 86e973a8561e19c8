/**
 One iteration of the receiving loops as a function, and what iterating it means for a stream.
 The worker of the server and the two client wait calls run the same two loops.
 */
module Receiving {
  import opened Sequences
  import opened Framing
  import opened SocketLoops

  /** The registers of a receive in progress. */
  datatype Receiver =
    | NeedHeader(got: seq<byte>)
    | NeedPayload(header: Header, got: seq<byte>)
    | Complete(message: Message)
  {
    predicate Valid() {
      match this
      case NeedHeader(got) => |got| < HEADER_SIZE
      case NeedPayload(h, got) => |got| < PayloadLen(h)
      case Complete(m) => WellFormed(m)
    }

    /** The length of the next read request. */
    function Wanted(): nat
      requires Valid()
    {
      match this
      case NeedHeader(got) => HEADER_SIZE - |got|
      case NeedPayload(h, got) => PayloadLen(h) - |got|
      case Complete(_) => 0
    }

    /** The bytes this receive has taken off its connection so far. */
    function Consumed(): seq<byte> {
      match this
      case NeedHeader(got) => got
      case NeedPayload(h, got) => EncodeHeader(h) + got
      case Complete(m) => Frame(m)
    }

    /** One read result arrives. A message without payload is complete with its header. */
    function Feed(bytes: seq<byte>): Receiver
      requires Valid() && 0 < |bytes| <= Wanted()
    {
      match this
      case NeedHeader(got) =>
        var all := got + bytes;
        if |all| < HEADER_SIZE then NeedHeader(all) else
        var h := DecodeHeader(all);
        if PayloadLen(h) == 0 then Complete(Message(h, [])) else NeedPayload(h, [])
      case NeedPayload(h, got) =>
        var all := got + bytes;
        if |all| < PayloadLen(h) then NeedPayload(h, all) else Complete(Message(h, all))
    }
  }

  const START := NeedHeader([])

  /** No byte is lost, duplicated or reordered by an iteration, and no request is ever empty. */
  lemma FeedConsumes(r: Receiver, bytes: seq<byte>)
    requires r.Valid() && 0 < |bytes| <= r.Wanted()
    ensures var r' := r.Feed(bytes);
            && r'.Valid() && r'.Consumed() == r.Consumed() + bytes
            && (r'.Complete? || r'.Wanted() > 0)
  {
    match r
    case NeedHeader(got) =>
      if |got + bytes| == HEADER_SIZE {
        EncodeOfDecode(got + bytes);
      }
    case NeedPayload(h, got) =>
      Associate(EncodeHeader(h), got, bytes);
  }

  function Rank(r: Receiver): nat {
    match r
    case NeedHeader(_) => 2
    case NeedPayload(_, _) => 1
    case Complete(_) => 0
  }

  /** Iterating until the message is complete, the connection ends, or the results run out. */
  function Receive(r: Receiver, script: seq<ReadResult>): ReceiveRun
    requires r.Valid()
    decreases Rank(r), |script|
  {
    if r.Complete? then ReceiveRun(Finished(r.message), script)
    else if script == [] then ReceiveRun(Interrupted(Open), [])
    else match script[0]
      case ReadEof => ReceiveRun(Interrupted(Eof), script[1..])
      case ReadHard => ReceiveRun(Interrupted(HardError), script[1..])
      case ReadAgain => Receive(r, script[1..])
      case ReadIntr => Receive(r, script[1..])
      case Got(bytes) =>
        if bytes == [] then Receive(r, script[1..]) else
        var k := Min(|bytes|, r.Wanted());
        FeedConsumes(r, bytes[..k]);
        var later := if k < |bytes| then [Got(bytes[k..])] + script[1..] else script[1..];
        Receive(r.Feed(bytes[..k]), later)
  }

  lemma NoFrameYet(r: Receiver)
    requires r.Valid() && !r.Complete?
    ensures !HasFrame(r.Consumed())
  {
    if r.NeedPayload? {
      assert r.Consumed()[..HEADER_SIZE] == EncodeHeader(r.header);
      DecodeOfEncode(r.header);
    }
  }

  /**
   Fragmentation does not matter: a receive finishes exactly when the bytes taken so far and the
   bytes still to come hold a complete frame, its message is the one in that frame, and of the
   stream exactly that frame is gone. Otherwise it ends as the connection ends.
   */
  lemma {:induction false} ReceiveMeaning(r: Receiver, script: seq<ReadResult>)
    requires r.Valid()
    ensures ReceivedOf(r.Consumed() + Stream(script), |r.Consumed()|, script, Receive(r, script))
    decreases Rank(r), |script|
  {
    if r.Complete? {
      FirstMessageOfFrame(r.message, Stream(script));
    } else if script == [] || script[0].ReadEof? || script[0].ReadHard? {
      assert r.Consumed() + [] == r.Consumed();
      NoFrameYet(r);
    } else if script[0].Got? && script[0].bytes != [] {
      ReceiveMeaningGot(r, script);
    } else {
      assert Stream(script) == Stream(script[1..]);
      ReceiveMeaning(r, script[1..]);
    }
  }

  /** One receive from its beginning: the very verdict the wait calls and the worker are held to. */
  lemma OneReceive(script: seq<ReadResult>)
    ensures ReceivedOf(Stream(script), 0, script, Receive(START, script))
    ensures Receive(START, script).end == Verdict(script)
  {
    assert START.Consumed() + Stream(script) == Stream(script);
    ReceiveMeaning(START, script);
  }

  lemma {:induction false} ReceiveMeaningGot(r: Receiver, script: seq<ReadResult>)
    requires r.Valid() && !r.Complete? && script != [] && script[0].Got? && script[0].bytes != []
    ensures ReceivedOf(r.Consumed() + Stream(script), |r.Consumed()|, script, Receive(r, script))
    decreases Rank(r), |script|, 0
  {
    var bytes := script[0].bytes;
    var k := Min(|bytes|, r.Wanted());
    var later := if k < |bytes| then [Got(bytes[k..])] + script[1..] else script[1..];
    ReceiveGot(r, script, k, later);
    var r' := r.Feed(bytes[..k]);
    ReceiveMeaning(r', later);
    GotMore(r.Consumed() + Stream(script), r'.Consumed() + Stream(later), |r.Consumed()|, |r'.Consumed()|, k,
            script, later, Receive(r, script), Receive(r', later));
  }

  lemma GotMore(s: seq<byte>, s': seq<byte>, have: nat, have': nat, k: nat, script: seq<ReadResult>, later: seq<ReadResult>,
                run: ReceiveRun, run': ReceiveRun)
    requires s == s' && have' == have + k && run == run'
    requires TookExactly(script, later, k) && ReceivedOf(s', have', later, run')
    ensures ReceivedOf(s, have, script, run)
  {
    TookMore(s, have, k, script, later, run);
  }

  lemma ReceiveGot(r: Receiver, script: seq<ReadResult>, k: nat, later: seq<ReadResult>)
    requires r.Valid() && !r.Complete? && script != [] && script[0].Got? && script[0].bytes != []
    requires k == Min(|script[0].bytes|, r.Wanted())
    requires later == if k < |script[0].bytes| then [Got(script[0].bytes[k..])] + script[1..] else script[1..]
    ensures k > 0 && TookExactly(script, later, k)
    ensures var r' := r.Feed(script[0].bytes[..k]);
            && r'.Valid() && |r'.Consumed()| == |r.Consumed()| + k
            && r.Consumed() + Stream(script) == r'.Consumed() + Stream(later)
            && Receive(r, script) == Receive(r', later)
  {
    var bytes := script[0].bytes;
    FeedConsumes(r, bytes[..k]);
    LaterStream(script, k, later);
    Associate(r.Consumed(), bytes[..k], Stream(later));
  }

  lemma TookTwice(script: seq<ReadResult>, later: seq<ReadResult>, rest: seq<ReadResult>, a: nat, b: nat)
    requires TookExactly(script, later, a) && TookExactly(later, rest, b)
    ensures TookExactly(script, rest, a + b)
  {
    assert Stream(script)[a..][b..] == Stream(script)[a + b..];
  }

  lemma TookRest(script: seq<ReadResult>, later: seq<ReadResult>, rest: seq<ReadResult>, k: nat, n: nat)
    requires k <= n && TookExactly(script, later, k) && TookExactly(later, rest, n - k)
    ensures TookExactly(script, rest, n)
  {
    TookTwice(script, later, rest, k, n - k);
  }

  lemma TookMore(s: seq<byte>, have: nat, k: nat, script: seq<ReadResult>, later: seq<ReadResult>, run: ReceiveRun)
    requires TookExactly(script, later, k) && ReceivedOf(s, have + k, later, run)
    ensures ReceivedOf(s, have, script, run)
  {
    if HasFrame(s) {
      TookRest(script, later, run.rest, k, FrameLen(s) - have);
    }
  }

  /** Queueing the unread remainder of an arrival again does not change the stream. */
  lemma LaterStream(script: seq<ReadResult>, k: nat, later: seq<ReadResult>)
    requires script != [] && script[0].Got? && 0 < k <= |script[0].bytes|
    requires later == if k < |script[0].bytes| then [Got(script[0].bytes[k..])] + script[1..] else script[1..]
    ensures Stream(script) == script[0].bytes[..k] + Stream(later)
    ensures TookExactly(script, later, k)
  {
    var bytes := script[0].bytes;
    if k < |bytes| {
      assert later[1..] == script[1..];
      Associate(bytes[..k], bytes[k..], Stream(script[1..]));
    }
    assert bytes == bytes[..k] + bytes[k..];
  }

  // ---------------------------------------------------------------- many messages

  /** Sending a list of messages one after the other, stopping at the first send that does not succeed. */
  datatype SentAll = SentAll(bytes: seq<byte>, end: WriteEnd, rest: seq<WriteResult>)

  function SendAll(script: seq<WriteResult>, ms: seq<Message>): SentAll
    requires AllWellFormed(ms) && forall m :: m in ms ==> Whole(m)
    decreases |ms|
  {
    if ms == [] then SentAll([], WriteDone, script) else
    var run := RunSend(script, HEADER_SIZE, SendLen(ms[0].header));
    SendMeaning(script, HEADER_SIZE, SendLen(ms[0].header));
    assert WellFormed(ms[0]) && Whole(ms[0]);
    var bytes := Frame(ms[0])[..run.taken];
    if run.end != WriteDone then SentAll(bytes, run.end, run.rest) else
    var later := SendAll(run.rest, ms[1..]);
    SentAll(bytes + later.bytes, later.end, later.rest)
  }

  /** A message sent in one call: msg_write_len is not used, or says the same as msg_len. */
  predicate Whole(m: Message) {
    m.header.msgWriteLen == 0 || m.header.msgWriteLen == m.header.msgLen
  }

  lemma {:induction false} SendAllMeaning(script: seq<WriteResult>, ms: seq<Message>)
    requires AllWellFormed(ms) && forall m :: m in ms ==> Whole(m)
    ensures SendAll(script, ms).bytes <= Frames(ms)
    ensures SendAll(script, ms).end == WriteDone ==> SendAll(script, ms).bytes == Frames(ms)
    decreases |ms|
  {
    if ms != [] {
      var n := SendLen(ms[0].header);
      SendMeaning(script, HEADER_SIZE, n);
      var run := RunSend(script, HEADER_SIZE, n);
      assert WellFormed(ms[0]) && Whole(ms[0]);
      if run.end == WriteDone {
        SendAllMeaning(run.rest, ms[1..]);
        assert Frame(ms[0])[..run.taken] == Frame(ms[0]);
      } else {
        assert Frame(ms[0]) <= Frames(ms);
      }
    }
  }

  /** Receiving k messages in a row; None if one of the receives does not finish. */
  function ReceiveMany(script: seq<ReadResult>, k: nat): Option<seq<Message>>
    decreases k
  {
    if k == 0 then Some([]) else
    var run := Receive(START, script);
    match run.end
    case Interrupted(_) => None
    case Finished(m) =>
      match ReceiveMany(run.rest, k - 1)
      case None => None
      case Some(ms) => Some([m] + ms)
  }

  lemma {:induction false} ReceiveManyFrames(script: seq<ReadResult>, ms: seq<Message>)
    requires AllWellFormed(ms) && Frames(ms) <= Stream(script)
    ensures ReceiveMany(script, |ms|) == Some(ms)
    decreases |ms|
  {
    if ms != [] {
      var s := Stream(script);
      var frame := Frame(ms[0]);
      var tail := s[|frame|..];
      assert WellFormed(ms[0]);
      assert s == frame + tail && Frames(ms[1..]) <= tail by {
        assert Frames(ms) == s[..|Frames(ms)|];
        assert Frames(ms)[..|frame|] == frame && Frames(ms)[|frame|..] == Frames(ms[1..]);
      }
      FirstMessageOfFrame(ms[0], tail);
      assert START.Consumed() + s == s;
      ReceiveMeaning(START, script);
      ReceiveManyFrames(Receive(START, script).rest, ms[1..]);
      assert [ms[0]] + ms[1..] == ms;
    }
  }

  /**
   Round trip: if all the sends succeed, then receiving as often recovers the list, for every
   sequence of results on the sending side and every independent one on the receiving side.
   */
  lemma RoundTrip(ms: seq<Message>, sending: seq<WriteResult>, receiving: seq<ReadResult>)
    requires AllWellFormed(ms) && forall m :: m in ms ==> Whole(m)
    requires SendAll(sending, ms).end == WriteDone
    requires SendAll(sending, ms).bytes <= Stream(receiving)
    ensures ReceiveMany(receiving, |ms|) == Some(ms)
  {
    SendAllMeaning(sending, ms);
    ReceiveManyFrames(receiving, ms);
  }
}
