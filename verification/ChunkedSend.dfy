/** Sending a message in chunks, and what a receive makes of it. */
module ChunkedSend {
  import opened Sequences
  import opened Framing
  import opened Chunks
  import opened SocketLoops
  import opened Receiving

  /** One write loop for each buffer, stopping at the first that does not finish. */
  function SendPieces(script: seq<WriteResult>, pieces: seq<seq<byte>>): SentAll
    decreases |pieces|
  {
    if pieces == [] then SentAll([], WriteDone, script) else
    var run := RunWrites(script, |pieces[0]|);
    WriteLoopTaken(script, |pieces[0]|);
    var bytes := pieces[0][..run.taken];
    if run.end != WriteDone then SentAll(bytes, run.end, run.rest) else
    var later := SendPieces(run.rest, pieces[1..]);
    SentAll(bytes + later.bytes, later.end, later.rest)
  }

  lemma {:induction false} SendPiecesMeaning(script: seq<WriteResult>, pieces: seq<seq<byte>>)
    ensures SendPieces(script, pieces).bytes <= Flatten(pieces)
    ensures SendPieces(script, pieces).end == WriteDone ==> SendPieces(script, pieces).bytes == Flatten(pieces)
    decreases |pieces|
  {
    if pieces != [] {
      var run := RunWrites(script, |pieces[0]|);
      WriteLoopTaken(script, |pieces[0]|);
      if run.end == WriteDone {
        SendPiecesMeaning(run.rest, pieces[1..]);
        assert pieces[0][..run.taken] == pieces[0];
      } else {
        assert pieces[0] <= Flatten(pieces);
      }
    }
  }

  /**
   The calls of a chunked send: comm_*_send_header for h, then comm_*_send_data for each part, with
   the header of the part as it is at that moment.
   */
  function SendChunks(script: seq<WriteResult>, h: Header, calls: seq<DataCall>): SentAll {
    SendPieces(script, [EncodeHeader(h)] + WrittenAll(h, calls))
  }

  lemma FlattenPrefixed(h: Header, body: seq<seq<byte>>)
    ensures Flatten([EncodeHeader(h)] + body) == EncodeHeader(h) + Flatten(body)
  {
    assert ([EncodeHeader(h)] + body)[1..] == body;
  }

  lemma TookLengths(before: seq<ReadResult>, after: seq<ReadResult>, j: nat, k: nat)
    requires TookExactly(before, after, j) && TookExactly(before, after, k)
    ensures j == k
  {
    assert |Stream(after)| == |Stream(before)| - j == |Stream(before)| - k;
  }

  /**
   A chunked send that was carried through, under any short writes and reads: one receive returns
   one message, with the concatenation of the chunks, and has taken exactly what was sent, if and
   only if the chunks total msg_len and none of them is empty (unless all are).
   */
  lemma ChunkedRoundTrip(h: Header, calls: seq<DataCall>, sending: seq<WriteResult>, receiving: seq<ReadResult>)
    requires AllCallable(h, calls)
    requires SendChunks(sending, h, calls).end == WriteDone
    requires SendChunks(sending, h, calls).bytes <= Stream(receiving)
    ensures var m, run := Message(h, Flatten(ChunksOf(calls))), Receive(START, receiving);
            run.end == Finished(m) && TookExactly(receiving, run.rest, |SendChunks(sending, h, calls).bytes|)
            <==> WellFormed(m) && NoEmptyChunk(h, calls)
  {
    var body, s := Flatten(WrittenAll(h, calls)), Stream(receiving);
    SendPiecesMeaning(sending, [EncodeHeader(h)] + WrittenAll(h, calls));
    FlattenPrefixed(h, WrittenAll(h, calls));
    EmptyChunksAdd(h, calls);
    assert START.Consumed() + s == s;
    ReceiveMeaning(START, receiving);
    ChunksAreFirst(h, calls, s);
    var run := Receive(START, receiving);
    if run.end.Finished? && TookExactly(receiving, run.rest, HEADER_SIZE + |body|) {
      TookLengths(receiving, run.rest, HEADER_SIZE + |body|, FrameLen(s));
      FirstFrame(s);
    }
  }

  lemma ChunksAreFirst(h: Header, calls: seq<DataCall>, s: seq<byte>)
    requires AllCallable(h, calls) && EncodeHeader(h) + Flatten(WrittenAll(h, calls)) <= s
    ensures var m := Message(h, Flatten(ChunksOf(calls)));
            WellFormed(m) && NoEmptyChunk(h, calls) ==>
              HasFrame(s) && FirstMessage(s) == m && FrameLen(s) == HEADER_SIZE + |Flatten(WrittenAll(h, calls))|
    ensures HasFrame(s) ==> FirstMessage(s).header == h && FrameLen(s) == HEADER_SIZE + PayloadLen(h)
  {
    var m := Message(h, Flatten(ChunksOf(calls)));
    assert s[..HEADER_SIZE] == EncodeHeader(h);
    DecodeOfEncode(h);
    if WellFormed(m) && NoEmptyChunk(h, calls) {
      EmptyChunksAdd(h, calls);
      FirstMessageOfFrame(m, s[|Frame(m)|..]);
      assert s == Frame(m) + s[|Frame(m)|..];
    }
  }

  /** The message m has the header h but for msg_write_len, and sending its data is this call. */
  ghost predicate IsCall(h: Header, m: CommMsg, call: DataCall)
    reads m, m.raw, m.data
  {
    && m.Sendable()
    && m.Header() == CallHeader(h, call)
    && call.buffer == if m.data == null then [] else m.data[..]
  }

  lemma CallWrites(h: Header, m: CommMsg, call: DataCall)
    requires IsCall(h, m, call)
    ensures Written(h, call) == m.Outgoing() && |m.Outgoing()| == SendLen(m.Header())
  {
  }

  /** bytes are sent and the last loop ended with end; unless it failed, the loops for left come next. */
  predicate SentSoFar(whole: SentAll, bytes: seq<byte>, end: WriteEnd, rest: seq<WriteResult>, left: seq<seq<byte>>) {
    if end == WriteDone
    then var later := SendPieces(rest, left); whole == SentAll(bytes + later.bytes, later.end, later.rest)
    else whole == SentAll(bytes, end, rest)
  }

  lemma SentPiece(whole: SentAll, bytes: seq<byte>, before: seq<WriteResult>, left: seq<seq<byte>>)
    requires SentSoFar(whole, bytes, WriteDone, before, left) && left != []
    ensures var run := RunWrites(before, |left[0]|);
            && run.taken <= |left[0]|
            && SentSoFar(whole, bytes + left[0][..run.taken], run.end, run.rest, left[1..])
  {
    WriteLoopTaken(before, |left[0]|);
    var run := RunWrites(before, |left[0]|);
    if run.end == WriteDone {
      Associate(bytes, left[0][..run.taken], SendPieces(run.rest, left[1..]).bytes);
    }
  }

  lemma NextCall(h: Header, calls: seq<DataCall>, i: nat)
    requires i < |calls|
    ensures var left := WrittenAll(h, calls[i..]);
            left != [] && left[0] == Written(h, calls[i]) && left[1..] == WrittenAll(h, calls[i + 1..])
  {
    assert calls[i..][1..] == calls[i + 1..];
  }

  function EndOf(out: Outcome): WriteEnd {
    match out
    case Blocked => WriteBlocked
    case Returned(value) => if value == COMM_STATUS_GENERIC then WriteFailed else WriteDone
  }

  /** comm_*_send_header as one loop over the header's bytes. */
  method SendHead(conn: Endpoint, head: CommMsg) returns (end: WriteEnd)
    requires head.Valid()
    modifies conn`wire, conn`writeScript
    ensures OneLoop(old(conn.wire), old(conn.writeScript), EncodeHeader(head.Header()), conn.wire, conn.writeScript, end)
  {
    WriteLoopTaken(conn.writeScript, HEADER_SIZE);
    EncodeOfDecode(head.raw[..]);
    var out := conn.SendHeader(head);
    end := EndOf(out);
  }

  /** comm_*_send_data as one loop over the bytes its header makes it write. */
  method SendPart(conn: Endpoint, m: CommMsg) returns (end: WriteEnd)
    requires m.Sendable()
    modifies conn`wire, conn`writeScript
    ensures OneLoop(old(conn.wire), old(conn.writeScript), m.Outgoing(), conn.wire, conn.writeScript, end)
  {
    WriteLoopTaken(conn.writeScript, SendLen(m.Header()));
    var out := conn.SendData(m);
    end := EndOf(out);
  }

  /** A write loop for the bytes of piece has run and ended with end. */
  ghost predicate OneLoop(wire: seq<byte>, script: seq<WriteResult>, piece: seq<byte>,
                          wire': seq<byte>, script': seq<WriteResult>, end: WriteEnd) {
    var run := RunWrites(script, |piece|);
    run.taken <= |piece| && wire' == wire + piece[..run.taken] && script' == run.rest && end == run.end
  }

  /** The loops for done are behind, those for left to come; start and whole are how it all began and will end. */
  ghost predicate Underway(start: seq<byte>, whole: SentAll, wire: seq<byte>, script: seq<WriteResult>,
                           end: WriteEnd, left: seq<seq<byte>>) {
    exists bytes :: wire == start + bytes && SentSoFar(whole, bytes, end, script, left)
  }

  lemma UnderwayNext(start: seq<byte>, whole: SentAll, wire: seq<byte>, script: seq<WriteResult>, left: seq<seq<byte>>,
                     wire': seq<byte>, script': seq<WriteResult>, end: WriteEnd)
    requires Underway(start, whole, wire, script, WriteDone, left) && left != []
    requires OneLoop(wire, script, left[0], wire', script', end)
    ensures Underway(start, whole, wire', script', end, left[1..])
  {
    var bytes :| wire == start + bytes && SentSoFar(whole, bytes, WriteDone, script, left);
    SentPiece(whole, bytes, script, left);
    var more := left[0][..RunWrites(script, |left[0]|).taken];
    Associate(start, bytes, more);
    assert wire' == start + (bytes + more);
  }

  lemma UnderwayAtFirst(start: seq<byte>, script: seq<WriteResult>, left: seq<seq<byte>>)
    ensures Underway(start, SendPieces(script, left), start, script, WriteDone, left)
  {
    var whole := SendPieces(script, left);
    assert [] + whole.bytes == whole.bytes;
    assert SentSoFar(whole, [], WriteDone, script, left) && start == start + [];
  }

  lemma UnderwayAtLast(start: seq<byte>, whole: SentAll, wire: seq<byte>, script: seq<WriteResult>,
                       end: WriteEnd, left: seq<seq<byte>>)
    requires Underway(start, whole, wire, script, end, left) && (end == WriteDone ==> left == [])
    ensures wire == start + whole.bytes && script == whole.rest && end == whole.end
  {
    var bytes :| wire == start + bytes && SentSoFar(whole, bytes, end, script, left);
    assert bytes + [] == bytes;
  }

  /** The loops for every part of every call, in order, as long as none fails. */
  method SendParts(conn: Endpoint, ghost h: Header, parts: seq<CommMsg>, ghost calls: seq<DataCall>) returns (end: WriteEnd)
    requires |calls| == |parts| && forall i :: 0 <= i < |parts| ==> IsCall(h, parts[i], calls[i])
    modifies conn`wire, conn`writeScript
    ensures var sent := SendPieces(old(conn.writeScript), WrittenAll(h, calls));
            conn.wire == old(conn.wire) + sent.bytes && conn.writeScript == sent.rest && end == sent.end
  {
    ghost var start, left := conn.wire, WrittenAll(h, calls);
    ghost var whole := SendPieces(conn.writeScript, left);
    UnderwayAtFirst(start, conn.writeScript, left);
    end := WriteDone;
    var i := 0;
    while i < |parts| && end == WriteDone
      invariant 0 <= i <= |parts| && left == WrittenAll(h, calls[i..])
      invariant forall j :: 0 <= j < |parts| ==> IsCall(h, parts[j], calls[j])
      invariant Underway(start, whole, conn.wire, conn.writeScript, end, left)
    {
      CallWrites(h, parts[i], calls[i]);
      NextCall(h, calls, i);
      ghost var wire, script := conn.wire, conn.writeScript;
      end := SendPart(conn, parts[i]);
      UnderwayNext(start, whole, wire, script, left, conn.wire, conn.writeScript, end);
      left := left[1..];
      i := i + 1;
    }
    UnderwayAtLast(start, whole, conn.wire, conn.writeScript, end, left);
  }

  /**
   A caller of send_header and send_data: the header of head, then for each part as many bytes of
   its buffer as the header of the part says.
   */
  method SendInChunks(conn: Endpoint, head: CommMsg, parts: seq<CommMsg>, ghost calls: seq<DataCall>) returns (end: WriteEnd)
    requires head.Valid() && |calls| == |parts|
    requires forall i :: 0 <= i < |parts| ==> IsCall(head.Header(), parts[i], calls[i])
    modifies conn`wire, conn`writeScript
    ensures var sent := SendChunks(old(conn.writeScript), old(head.Header()), calls);
            conn.wire == old(conn.wire) + sent.bytes && conn.writeScript == sent.rest && end == sent.end
  {
    ghost var h, start, script := head.Header(), conn.wire, conn.writeScript;
    end := SendHead(conn, head);
    HeadThenParts(script, h, calls);
    if end == WriteDone {
      end := SendParts(conn, h, parts, calls);
      Associate(start, EncodeHeader(h)[..RunWrites(script, HEADER_SIZE).taken],
                SendPieces(RunWrites(script, HEADER_SIZE).rest, WrittenAll(h, calls)).bytes);
    }
  }

  lemma HeadThenParts(script: seq<WriteResult>, h: Header, calls: seq<DataCall>)
    ensures var run, sent := RunWrites(script, HEADER_SIZE), SendChunks(script, h, calls);
            && run.taken <= HEADER_SIZE
            && if run.end != WriteDone then sent == SentAll(EncodeHeader(h)[..run.taken], run.end, run.rest)
               else var later := SendPieces(run.rest, WrittenAll(h, calls));
                    sent == SentAll(EncodeHeader(h)[..run.taken] + later.bytes, later.end, later.rest)
  {
    WriteLoopTaken(script, HEADER_SIZE);
    assert ([EncodeHeader(h)] + WrittenAll(h, calls))[1..] == WrittenAll(h, calls);
  }
}
