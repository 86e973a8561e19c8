/**
 The connections of the server machine do what the socket loops do: its single write steps, over any
 results, are the write loops of the sender.
 */
module LinkLoops {
  import opened Sequences
  import opened Framing
  import opened Chunks
  import opened SocketLoops
  import opened Receiving
  import opened ChunkedSend
  import opened Server
  import opened Delivery

  // ---------------------------------------------------------------- writing

  /** A live connection with something to write takes any result of a write. */
  lemma WritesAreNeverRefused(k: Link, result: WriteResult)
    requires !k.writeDead
    ensures WriteStep(k, result).Some? <==> k.pieces != []
  {
  }

  /** Write steps until nothing is left to write or no result is left; the link and the unused results. */
  function WriteSteps(k: Link, script: seq<WriteResult>): (Link, seq<WriteResult>)
    decreases |script|
  {
    if script == [] then (k, []) else
    match WriteStep(k, script[0])
    case None => (k, script)
    case Some(k') => WriteSteps(k', script[1..])
  }

  function LeftOf(pieces: seq<seq<byte>>, n: nat): seq<seq<byte>>
    requires pieces != [] && n <= |pieces[0]|
  {
    (if n == |pieces[0]| then [] else [pieces[0][n..]]) + pieces[1..]
  }

  lemma RunWritesNext(script: seq<WriteResult>, len: nat)
    requires script != [] && len > 0
    ensures var run := RunWrites(script, len);
            match script[0]
            case WriteAgain => var later := RunWrites(script[1..], len); run == later.(used := run.used)
            case WriteIntr => var later := RunWrites(script[1..], len); run == later.(used := run.used)
            case WriteHard => run == WriteRun(0, WriteFailed, run.used, script[1..])
            case Took(room) =>
              var later := RunWrites(script[1..], len - Min(room, len));
              run == later.(taken := Min(room, len) + later.taken, used := run.used)
  {
  }

  /** What a result that moves no byte does to the loops. */
  lemma SendPiecesNext(script: seq<WriteResult>, pieces: seq<seq<byte>>)
    requires script != [] && pieces != [] && pieces[0] != [] && !script[0].Took?
    ensures SendPieces(script, pieces)
         == if script[0] == WriteHard then SentAll([], WriteFailed, script[1..]) else SendPieces(script[1..], pieces)
  {
    RunWritesNext(script, |pieces[0]|);
    assert pieces[0][..0] == [];
  }

  /** A result that takes the piece whole. */
  lemma SendPiecesTookAll(script: seq<WriteResult>, pieces: seq<seq<byte>>)
    requires script != [] && pieces != [] && pieces[0] != [] && script[0].Took? && |pieces[0]| <= script[0].n
    ensures var later := SendPieces(script[1..], pieces[1..]);
            SendPieces(script, pieces) == SentAll(pieces[0] + later.bytes, later.end, later.rest)
  {
    RunWritesNext(script, |pieces[0]|);
    assert RunWrites(script[1..], 0) == WriteRun(0, WriteDone, [], script[1..]);
    assert pieces[0][..|pieces[0]|] == pieces[0];
  }

  lemma JoinPiece(p: seq<byte>, n: nat, more: nat, later: seq<byte>)
    requires n + more <= |p|
    ensures p[..n + more] == p[..n] + p[n..][..more]
    ensures p[..n + more] + later == p[..n] + (p[n..][..more] + later)
  {
  }

  /** The loops when the first of them has run. */
  function AfterFirst(p: seq<byte>, run: WriteRun, later: SentAll): SentAll
    requires run.taken <= |p|
  {
    if run.end != WriteDone then SentAll(p[..run.taken], run.end, run.rest)
    else SentAll(p[..run.taken] + later.bytes, later.end, later.rest)
  }

  lemma SendPiecesFirst(script: seq<WriteResult>, p: seq<byte>, rest: seq<seq<byte>>)
    ensures var run := RunWrites(script, |p|);
            run.taken <= |p| && SendPieces(script, [p] + rest) == AfterFirst(p, run, SendPieces(run.rest, rest))
  {
    WriteLoopTaken(script, |p|);
    assert ([p] + rest)[1..] == rest;
  }

  lemma AfterFirstTook(p: seq<byte>, n: nat, run: WriteRun, run': WriteRun, later: SentAll)
    requires n <= |p| && run.taken <= |p| - n
    requires run'.taken == n + run.taken && run'.end == run.end && run'.rest == run.rest
    ensures var tail := AfterFirst(p[n..], run, later);
            AfterFirst(p, run', later) == SentAll(p[..n] + tail.bytes, tail.end, tail.rest)
  {
    JoinPiece(p, n, run.taken, later.bytes);
  }

  /** A result that takes a part of the piece. */
  lemma SendPiecesTookSome(script: seq<WriteResult>, p: seq<byte>, rest: seq<seq<byte>>, n: nat)
    requires script != [] && script[0] == Took(n) && n < |p|
    ensures var later := SendPieces(script[1..], [p[n..]] + rest);
            SendPieces(script, [p] + rest) == SentAll(p[..n] + later.bytes, later.end, later.rest)
  {
    var run := RunWrites(script[1..], |p[n..]|);
    RunWritesNext(script, |p|);
    SendPiecesFirst(script, p, rest);
    SendPiecesFirst(script[1..], p[n..], rest);
    AfterFirstTook(p, n, run, RunWrites(script, |p|), SendPieces(run.rest, rest));
  }

  lemma SendPiecesTook(script: seq<WriteResult>, pieces: seq<seq<byte>>, n: nat)
    requires script != [] && pieces != [] && pieces[0] != [] && script[0].Took? && n == Min(script[0].n, |pieces[0]|)
    ensures var later := SendPieces(script[1..], LeftOf(pieces, n));
            SendPieces(script, pieces) == SentAll(pieces[0][..n] + later.bytes, later.end, later.rest)
  {
    if n < |pieces[0]| {
      assert pieces == [pieces[0]] + pieces[1..];
      SendPiecesTookSome(script, pieces[0], pieces[1..], n);
    } else {
      SendPiecesTookAll(script, pieces);
      assert [] + pieces[1..] == pieces[1..] && pieces[0][..n] == pieces[0];
    }
  }

  /**
   For every sequence of results, the write steps of a live connection are the sender's write loops
   over its pieces, one after the other: the wire gains the bytes the loops write, the same results
   are used, the connection is write-dead exactly when a loop failed, nothing is left to write
   exactly when the loops ended, and what is left otherwise is what has not been written.
   */
  lemma {:induction false} WriteStepsAreLoops(k: Link, script: seq<WriteResult>)
    requires !k.writeDead && [] !in k.pieces
    ensures var (k', rest), sent := WriteSteps(k, script), SendPieces(script, k.pieces);
            && k' == k.(wire := k.wire + sent.bytes, pieces := k'.pieces, writeDead := k'.writeDead)
            && rest == sent.rest
            && (k'.writeDead <==> sent.end == WriteFailed)
            && (k'.pieces == [] <==> sent.end != WriteBlocked)
            && (sent.end == WriteBlocked ==> sent.bytes + Flatten(k'.pieces) == Flatten(k.pieces))
    decreases |script|
  {
    if k.pieces == [] || script == [] {
      assert k.wire + [] == k.wire;
      BlockedAtOnce(k.pieces);
    } else {
      assert k.pieces[0] in k.pieces;
      if script[0].Took? {
        WriteStepsTook(k, script);
        return;
      }
      SendPiecesNext(script, k.pieces);
      if script[0] == WriteHard {
        assert k.wire + [] == k.wire;
        DeadLink(k.(pieces := [], writeDead := true), script[1..]);
      } else {
        WriteStepsAreLoops(k, script[1..]);
      }
    }
  }

  lemma DeadLink(k: Link, script: seq<WriteResult>)
    requires k.pieces == []
    ensures WriteSteps(k, script) == (k, script)
  {
  }

  lemma BlockedAtOnce(pieces: seq<seq<byte>>)
    requires [] !in pieces
    ensures pieces != [] ==> SendPieces([], pieces) == SentAll([], WriteBlocked, [])
  {
    if pieces != [] {
      assert pieces[0] in pieces;
      assert pieces[0][..0] == [];
    }
  }

  lemma {:induction false} WriteStepsTook(k: Link, script: seq<WriteResult>)
    requires !k.writeDead && [] !in k.pieces && k.pieces != [] && script != [] && script[0].Took?
    ensures var (k', rest), sent := WriteSteps(k, script), SendPieces(script, k.pieces);
            && k' == k.(wire := k.wire + sent.bytes, pieces := k'.pieces, writeDead := k'.writeDead)
            && rest == sent.rest
            && (k'.writeDead <==> sent.end == WriteFailed)
            && (k'.pieces == [] <==> sent.end != WriteBlocked)
            && (sent.end == WriteBlocked ==> sent.bytes + Flatten(k'.pieces) == Flatten(k.pieces))
    decreases |script|, 0
  {
    assert k.pieces[0] in k.pieces;
    var n := Min(script[0].n, |k.pieces[0]|);
    var k1 := k.(wire := k.wire + k.pieces[0][..n], pieces := LeftOf(k.pieces, n));
    assert WriteStep(k, script[0]) == Some(k1);
    var sent, later := SendPieces(script, k.pieces), SendPieces(script[1..], k1.pieces);
    SendPiecesTook(script, k.pieces, n);
    WriteStepsAreLoops(k1, script[1..]);
    Associate(k.wire, k.pieces[0][..n], later.bytes);
    if sent.end == WriteBlocked {
      var k' := WriteSteps(k1, script[1..]).0;
      FlattenLeft(k.pieces, n);
      Associate(k.pieces[0][..n], later.bytes, Flatten(k'.pieces));
    }
  }

  lemma FlattenLeft(pieces: seq<seq<byte>>, n: nat)
    requires pieces != [] && n <= |pieces[0]|
    ensures Flatten(pieces) == pieces[0][..n] + Flatten(LeftOf(pieces, n))
  {
    var p, left := pieces[0], LeftOf(pieces, n);
    assert p == p[..n] + p[n..];
    if n < |p| {
      assert left[0] == p[n..] && left[1..] == pieces[1..];
      Associate(p[..n], p[n..], Flatten(pieces[1..]));
    } else {
      assert left == pieces[1..];
    }
  }

  // ---------------------------------------------------------------- plans

  lemma {:induction false} SendNonEmpty(script: seq<WriteResult>, pieces: seq<seq<byte>>)
    ensures SendPieces(script, NonEmpty(pieces)) == SendPieces(script, pieces)
    decreases |pieces|
  {
    if pieces != [] {
      if pieces[0] == [] {
        SendNonEmpty(script, pieces[1..]);
        assert NonEmpty(pieces) == NonEmpty(pieces[1..]);
        var later := SendPieces(script, pieces[1..]);
        assert RunWrites(script, 0) == WriteRun(0, WriteDone, [], script);
        assert [] + later.bytes == later.bytes;
      } else {
        var run := RunWrites(script, |pieces[0]|);
        SendNonEmpty(run.rest, pieces[1..]);
        assert NonEmpty(pieces) == [pieces[0]] + NonEmpty(pieces[1..]);
        assert pieces == [pieces[0]] + pieces[1..];
        SendPiecesFirst(script, pieces[0], NonEmpty(pieces[1..]));
        SendPiecesFirst(script, pieces[0], pieces[1..]);
      }
    }
  }

  /** What the loops of a plan's own calls write for a sequence of results. */
  function PlanSent(script: seq<WriteResult>, plan: Plan): SentAll {
    match plan
    case InChunks(h, calls) => SendChunks(script, h, calls)
    case InOneCall(m) =>
      var run := RunSend(script, HEADER_SIZE, |m.payload|);
      SendMeaning(script, HEADER_SIZE, |m.payload|);
      SentAll(Frame(m)[..run.taken], run.end, run.rest)
  }

  lemma SendIsPieces(script: seq<WriteResult>, m: Message)
    ensures var run := RunSend(script, HEADER_SIZE, |m.payload|);
            run.taken <= |Frame(m)|
            && SendPieces(script, [EncodeHeader(m.header)] + [m.payload]) == SentAll(Frame(m)[..run.taken], run.end, run.rest)
  {
    var a := RunWrites(script, HEADER_SIZE);
    SendMeaning(script, HEADER_SIZE, |m.payload|);
    SendPiecesFirst(script, EncodeHeader(m.header), [m.payload]);
    assert Frame(m)[..a.taken] == EncodeHeader(m.header)[..a.taken];
    if a.end == WriteDone {
      var b := RunWrites(a.rest, |m.payload|);
      assert [m.payload] + [] == [m.payload];
      SendPiecesFirst(a.rest, m.payload, []);
      WriteLoopTaken(script, HEADER_SIZE);
      assert m.payload[..b.taken] + [] == m.payload[..b.taken];
      TakeTwo(EncodeHeader(m.header), m.payload, b.taken);
    }
  }

  /**
   From the moment a sender begins, the write steps of its connection are the calls of its plan: one
   send, or send_header and send_data for each part, for every sequence of results.
   */
  lemma PlanIsSent(k: Link, plan: Plan, script: seq<WriteResult>)
    requires k.pieces == [] && !k.writeDead
    ensures var (k', rest), sent := WriteSteps(k.(pieces := plan.Buffers()), script), PlanSent(script, plan);
            && k'.wire == k.wire + sent.bytes && rest == sent.rest
            && (k'.writeDead <==> sent.end == WriteFailed) && (k'.pieces == [] <==> sent.end != WriteBlocked)
  {
    BuffersNotEmpty(plan);
    WriteStepsAreLoops(k.(pieces := plan.Buffers()), script);
    match plan
    case InChunks(h, calls) =>
      SendHeadAndNonEmpty(script, EncodeHeader(h), WrittenAll(h, calls));
    case InOneCall(m) =>
      SendHeadAndNonEmpty(script, EncodeHeader(m.header), [m.payload]);
      SendIsPieces(script, m);
  }

  lemma SendHeadAndNonEmpty(script: seq<WriteResult>, head: seq<byte>, pieces: seq<seq<byte>>)
    ensures SendPieces(script, [head] + NonEmpty(pieces)) == SendPieces(script, [head] + pieces)
  {
    SendPiecesFirst(script, head, NonEmpty(pieces));
    SendPiecesFirst(script, head, pieces);
    SendNonEmpty(RunWrites(script, |head|).rest, pieces);
  }
}
