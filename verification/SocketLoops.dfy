/**
 The retry loops that move a header and then a payload over a socket. The environment is an
 arbitrary finite sequence of system call results; a call that has used them all up without
 finishing is Blocked, that is, still looping.
 */
module SocketLoops {
  import opened Sequences
  import opened Framing

  const COMM_STATUS_GENERIC := -1
  const COMM_STATUS_PEER_CLOSE := -2

  datatype Errno = NoError | EAGAIN | EINTR | EOTHER

  /** What a send or wait call has come to. */
  datatype Outcome = Returned(value: int) | Blocked

  // ---------------------------------------------------------------- writing

  /** Took(n): the kernel has room for n bytes; a request for fewer takes fewer, Took(0) returns 0. */
  datatype WriteResult = Took(n: nat) | WriteAgain | WriteIntr | WriteHard

  datatype WriteEnd = WriteDone | WriteFailed | WriteBlocked

  /** How many bytes a write loop got rid of, how it ended, which results it used and left. */
  datatype WriteRun = WriteRun(taken: nat, end: WriteEnd, used: seq<WriteResult>, rest: seq<WriteResult>)

  function Accepted(r: WriteResult, len: nat): (n: nat)
    ensures n <= len
  {
    if r.Took? then Min(r.n, len) else 0
  }

  function RunWrites(script: seq<WriteResult>, len: nat): WriteRun {
    if len == 0 then WriteRun(0, WriteDone, [], script)
    else if script == [] then WriteRun(0, WriteBlocked, [], [])
    else if script[0] == WriteHard then WriteRun(0, WriteFailed, [WriteHard], script[1..])
    else
      var k := Accepted(script[0], len);
      var r := RunWrites(script[1..], len - k);
      WriteRun(k + r.taken, r.end, [script[0]] + r.used, r.rest)
  }

  /** After count of total bytes, a write loop that began with before goes on with script. */
  predicate WroteSoFar(before: seq<WriteResult>, script: seq<WriteResult>, total: nat, count: nat)
    requires count <= total
  {
    var whole, rest := RunWrites(before, total), RunWrites(script, total - count);
    whole.taken == count + rest.taken && whole.end == rest.end && whole.rest == rest.rest
  }

  lemma WroteMore(before: seq<WriteResult>, script: seq<WriteResult>, total: nat, count: nat)
    requires count < total && script != [] && WroteSoFar(before, script, total, count)
    ensures if script[0] == WriteHard then
              var whole := RunWrites(before, total);
              whole.taken == count && whole.end == WriteFailed && whole.rest == script[1..]
            else WroteSoFar(before, script[1..], total, count + Accepted(script[0], total - count))
  {
  }

  function Room(script: seq<WriteResult>): nat {
    if script == [] then 0 else (if script[0].Took? then script[0].n else 0) + Room(script[1..])
  }

  /** What a write loop has written depends only on the room in the results it used. */
  lemma {:induction false} WriteLoopTaken(script: seq<WriteResult>, len: nat)
    ensures var r := RunWrites(script, len);
            && script == r.used + r.rest
            && r.taken == Min(len, Room(r.used))
            && (r.end == WriteDone <==> r.taken == len)
            && (r.end == WriteBlocked ==> r.rest == [])
            && (r.end == WriteFailed <==> WriteHard in r.used)
  {
    if len != 0 && script != [] && script[0] != WriteHard {
      var k := Accepted(script[0], len);
      var later := RunWrites(script[1..], len - k);
      WriteLoopTaken(script[1..], len - k);
      UsedOneMore(script, script[0], later.used, later.rest);
    }
  }

  lemma UsedOneMore(script: seq<WriteResult>, first: WriteResult, used: seq<WriteResult>, rest: seq<WriteResult>)
    requires script != [] && script[0] == first && script[1..] == used + rest
    ensures script == ([first] + used) + rest
    ensures Room([first] + used) == (if first.Took? then first.n else 0) + Room(used)
    ensures WriteHard in [first] + used <==> first == WriteHard || WriteHard in used
  {
    assert ([first] + used)[1..] == used;
    assert script == [first] + script[1..];
  }

  /** A write loop uses no result it does not need: no hard error was met earlier, nor was there room. */
  lemma {:induction false} WriteLoopMinimal(script: seq<WriteResult>, len: nat, k: nat)
    requires k < |RunWrites(script, len).used|
    ensures k <= |script| && WriteHard !in script[..k] && Room(script[..k]) < len
  {
    if k > 0 {
      var n := Accepted(script[0], len);
      WriteLoopMinimal(script[1..], len - n, k - 1);
      assert script[..k] == [script[0]] + script[1..][..k - 1];
    }
  }

  /** The two loops of one send: the second starts only when the first is done. */
  function RunSend(script: seq<WriteResult>, header: nat, payload: nat): WriteRun {
    var a := RunWrites(script, header);
    if a.end != WriteDone then a else
    var b := RunWrites(a.rest, payload);
    WriteRun(a.taken + b.taken, b.end, a.used + b.used, b.rest)
  }

  function SendOutcome(end: WriteEnd, total: nat): Outcome {
    match end
    case WriteDone => Returned(total)
    case WriteFailed => Returned(COMM_STATUS_GENERIC)
    case WriteBlocked => Blocked
  }

  lemma UsedBoth(script: seq<WriteResult>, a: seq<WriteResult>, b: seq<WriteResult>, rest: seq<WriteResult>)
    requires script == a + (b + rest)
    ensures script == (a + b) + rest
    ensures WriteHard in a + b <==> WriteHard in a || WriteHard in b
  {
  }

  /**
   A send call succeeds exactly when every byte was taken, it fails exactly when one of the results
   it used was a hard error, and until then it goes on looping.
   */
  lemma SendMeaning(script: seq<WriteResult>, header: nat, payload: nat)
    ensures var r := RunSend(script, header, payload);
            && script == r.used + r.rest
            && r.taken <= header + payload
            && (r.end == WriteDone <==> r.taken == header + payload)
            && (r.end == WriteFailed <==> WriteHard in r.used)
            && (r.end == WriteBlocked ==> r.rest == [])
  {
    var a := RunWrites(script, header);
    WriteLoopTaken(script, header);
    if a.end == WriteDone {
      var b := RunWrites(a.rest, payload);
      WriteLoopTaken(a.rest, payload);
      UsedBoth(script, a.used, b.used, b.rest);
    }
  }

  // ---------------------------------------------------------------- reading

  /** Got(bytes): bytes that have arrived together; a shorter request leaves the remainder queued. */
  datatype ReadResult = Got(bytes: seq<byte>) | ReadEof | ReadAgain | ReadIntr | ReadHard

  datatype Terminal = Open | Eof | HardError

  datatype ReadEnd = ReadDone | ReadEnded(why: Terminal)

  /** The bytes that arrive before the first EOF or hard error. */
  function Stream(script: seq<ReadResult>): seq<byte> {
    if script == [] || script[0].ReadEof? || script[0].ReadHard? then []
    else (if script[0].Got? then script[0].bytes else []) + Stream(script[1..])
  }

  function TerminalOf(script: seq<ReadResult>): Terminal {
    if script == [] then Open
    else if script[0].ReadEof? then Eof
    else if script[0].ReadHard? then HardError
    else TerminalOf(script[1..])
  }

  function AfterTerminal(script: seq<ReadResult>): seq<ReadResult> {
    if script == [] then []
    else if script[0].ReadEof? || script[0].ReadHard? then script[1..]
    else AfterTerminal(script[1..])
  }

  /** Exactly k bytes of the stream, and nothing else of the connection's future, are gone. */
  ghost predicate TookExactly(before: seq<ReadResult>, after: seq<ReadResult>, k: nat) {
    && k <= |Stream(before)|
    && Stream(after) == Stream(before)[k..]
    && TerminalOf(after) == TerminalOf(before)
    && AfterTerminal(after) == AfterTerminal(before)
  }

  datatype ReceiveEnd = Finished(message: Message) | Interrupted(why: Terminal)

  datatype ReceiveRun = ReceiveRun(end: ReceiveEnd, rest: seq<ReadResult>)

  /**
   The verdict a run on a script owes to the whole stream s, of which the first have bytes were
   taken before: the first frame of s if there is one, and otherwise how the connection ended.
   */
  ghost predicate ReceivedOf(s: seq<byte>, have: nat, script: seq<ReadResult>, run: ReceiveRun) {
    if HasFrame(s) then
      && run.end == Finished(FirstMessage(s))
      && have <= FrameLen(s)
      && TookExactly(script, run.rest, FrameLen(s) - have)
    else
      && run.end == Interrupted(TerminalOf(script))
      && run.rest == AfterTerminal(script)
  }

  /** How a receive that starts on script should end. */
  function Verdict(script: seq<ReadResult>): ReceiveEnd {
    if HasFrame(Stream(script)) then Finished(FirstMessage(Stream(script))) else Interrupted(TerminalOf(script))
  }

  function ReadOutcome(why: Terminal): Outcome {
    match why
    case Open => Blocked
    case Eof => Returned(COMM_STATUS_PEER_CLOSE)
    case HardError => Returned(COMM_STATUS_GENERIC)
  }

  /** What a read loop that began with before has got, and what is still to come. */
  ghost predicate ReadSoFar(before: seq<ReadResult>, got: seq<byte>, script: seq<ReadResult>) {
    && Stream(before) == got + Stream(script)
    && TerminalOf(script) == TerminalOf(before)
    && AfterTerminal(script) == AfterTerminal(before)
  }

  lemma ReadStops(before: seq<ReadResult>, got: seq<byte>, script: seq<ReadResult>)
    requires ReadSoFar(before, got, script) && (script == [] || script[0].ReadEof? || script[0].ReadHard?)
    ensures Stream(before) == got
    ensures AfterTerminal(before) == if script == [] then [] else script[1..]
    ensures TerminalOf(before) == if script == [] then Open else if script[0].ReadEof? then Eof else HardError
  {
  }

  lemma ReadSkips(before: seq<ReadResult>, got: seq<byte>, script: seq<ReadResult>)
    requires ReadSoFar(before, got, script) && script != [] && !script[0].ReadEof? && !script[0].ReadHard?
    requires script[0].Got? ==> script[0].bytes == []
    ensures ReadSoFar(before, got, script[1..])
  {
  }

  lemma SplitAt(s: seq<byte>, a: seq<byte>, b: seq<byte>)
    requires s == a + b
    ensures s[..|a|] == a && s[|a|..] == b
  {
  }

  function WaitOutcome(end: ReceiveEnd): Outcome {
    match end
    case Finished(m) => Returned(HEADER_SIZE + |m.payload|)
    case Interrupted(why) => ReadOutcome(why)
  }

  // ---------------------------------------------------------------- the calls

  /** comm_msg_t: the header as raw memory, the data pointer, the descriptor of its connection. */
  class CommMsg {
    const raw: array<byte>
    var data: array?<byte>
    var socketFd: int

    constructor ()
      ensures raw.Length == HEADER_SIZE && fresh(raw) && data == null
      ensures forall i :: 0 <= i < HEADER_SIZE ==> raw[i] == 0
    {
      raw := new byte[HEADER_SIZE](_ => 0);
      data := null;
      socketFd := 0;
    }

    ghost predicate Valid()
      reads this
    {
      raw.Length == HEADER_SIZE && data != raw
    }

    function Header(): Header
      requires raw.Length == HEADER_SIZE
      reads raw
    {
      DecodeHeader(raw[..])
    }

    /** The buffer behind data holds at least the bytes a send is going to write. */
    ghost predicate Sendable()
      reads this, raw
    {
      && Valid()
      && HEADER_SIZE + SendLen(Header()) < SSIZE_LIMIT
      && (SendLen(Header()) > 0 ==> data != null && SendLen(Header()) <= data.Length)
    }

    /** The payload bytes a send is going to write. */
    ghost function Outgoing(): seq<byte>
      requires Sendable()
      reads this, raw, data
    {
      if SendLen(Header()) == 0 then [] else data[..SendLen(Header())]
    }
  }

  /** One end of a connection, with everything the kernel is going to answer. */
  class Endpoint {
    const socketFd: int
    var wire: seq<byte>
    var writeScript: seq<WriteResult>
    var readScript: seq<ReadResult>

    constructor (fd: int, writeScript: seq<WriteResult>, readScript: seq<ReadResult>)
      ensures socketFd == fd && wire == [] && this.writeScript == writeScript && this.readScript == readScript
    {
      socketFd := fd;
      wire := [];
      this.writeScript := writeScript;
      this.readScript := readScript;
    }

    /** write(2) and send(2) of a non-empty piece of a buffer. */
    method Write(buf: array<byte>, off: nat, len: nat) returns (n: int, errno: Errno)
      requires 0 < len && off + len <= buf.Length
      requires writeScript != []
      modifies this`wire, this`writeScript
      ensures wire == old(wire) + buf[off..off + Accepted(old(writeScript)[0], len)]
      ensures writeScript == old(writeScript)[1..]
      ensures match old(writeScript)[0]
              case Took(k) => n == Min(k, len)
              case WriteAgain => n == -1 && errno == EAGAIN
              case WriteIntr => n == -1 && errno == EINTR
              case WriteHard => n == -1 && errno == EOTHER
    {
      var r := writeScript[0];
      writeScript := writeScript[1..];
      n, errno := -1, NoError;
      match r {
        case Took(k) => n := Min(k, len); wire := wire + buf[off..off + n];
        case WriteAgain => errno := EAGAIN;
        case WriteIntr => errno := EINTR;
        case WriteHard => errno := EOTHER;
      }
    }

    /** read(2) and recv(2) into a non-empty piece of a buffer. Only EOF is reported as 0. */
    method Read(buf: array<byte>, off: nat, len: nat) returns (n: int, errno: Errno)
      requires 0 < len && off + len <= buf.Length
      requires readScript != []
      modifies this`readScript, buf
      ensures buf[..off] == old(buf[..off])
      ensures forall i :: off + AtLeastZero(n) <= i < buf.Length ==> buf[i] == old(buf[i])
      ensures n > 0 <==> old(readScript)[0].Got? && old(readScript)[0].bytes != []
      ensures n > 0 ==> n <= len && Stream(old(readScript)) == buf[off..off + n] + Stream(readScript)
      ensures n > 0 ==> TerminalOf(readScript) == TerminalOf(old(readScript)) && AfterTerminal(readScript) == AfterTerminal(old(readScript))
      ensures n > 0 ==> n == len || |readScript| < |old(readScript)|
      ensures n <= 0 ==> readScript == old(readScript)[1..]
      ensures n == 0 <==> old(readScript)[0] == ReadEof
      ensures n < 0 ==> n == -1 && (errno == EOTHER <==> old(readScript)[0] == ReadHard)
      ensures n < 0 && errno != EOTHER ==> errno == EAGAIN || errno == EINTR
    {
      var r := readScript[0];
      var tail := readScript[1..];
      readScript := tail;
      n, errno := -1, NoError;
      match r {
        case Got(bytes) =>
          if bytes == [] {
            errno := EAGAIN;
          } else {
            n := Min(|bytes|, len);
            forall i | 0 <= i < n {
              buf[off + i] := bytes[i];
            }
            assert buf[off..off + n] == bytes[..n];
            if n < |bytes| {
              readScript := [Got(bytes[n..])] + tail;
              assert readScript[1..] == tail;
              assert bytes == bytes[..n] + bytes[n..];
            } else {
              assert bytes == bytes[..n];
            }
          }
        case ReadEof => n := 0;
        case ReadAgain => errno := EAGAIN;
        case ReadIntr => errno := EINTR;
        case ReadHard => errno := EOTHER;
      }
    }

    /**
     The retry loop for one buffer. The pointer p is advanced lazily, at the start of the next
     iteration, so after a 0, EAGAIN or EINTR result it must not move.
     */
    method WriteLoop(buf: array<byte>, totLen: int) returns (ret: int, end: WriteEnd)
      requires totLen <= buf.Length
      modifies this`wire, this`writeScript
      ensures 0 <= ret <= AtLeastZero(totLen) && wire == old(wire) + buf[..ret]
      ensures end == WriteDone <==> ret == AtLeastZero(totLen)
      ensures var r := RunWrites(old(writeScript), AtLeastZero(totLen));
              ret == r.taken && end == r.end && writeScript == r.rest
    {
      var writeLen, writeCount, count, p := totLen, 0, 0, 0;
      ghost var total, before := AtLeastZero(totLen), writeScript;
      ret := 0;
      while count < totLen && writeScript != []
        invariant 0 <= count <= total && ret == count
        invariant 0 <= p && 0 <= writeCount && p + writeCount == count
        invariant writeLen == totLen - count
        invariant wire == old(wire) + buf[..count]
        invariant WroteSoFar(before, writeScript, total, count)
        decreases |writeScript|
      {
        p := p + writeCount;
        var errno;
        WroteMore(before, writeScript, total, count);
        writeCount, errno := Write(buf, p, writeLen);
        if writeCount == 0 {
          continue;
        }
        if writeCount == -1 {
          writeCount := 0;
          if errno == EAGAIN || errno == EINTR {
            continue;
          }
          end := WriteFailed;
          return;
        }
        assert buf[..count] + buf[p..p + writeCount] == buf[..count + writeCount];
        count := count + writeCount;
        writeLen := totLen - count;
        ret := ret + writeCount;
      }
      end := if count < totLen then WriteBlocked else WriteDone;
    }

    /**
     comm_tcp_client_send, comm_unix_client_send and the two comm_*_servresp_send: header, then
     msg_write_len (or, if that is 0, msg_len) bytes of data.
     */
    method Send(msg: CommMsg) returns (out: Outcome)
      requires msg.Sendable()
      modifies this`wire, this`writeScript
      ensures var n := SendLen(msg.Header());
              var run := RunSend(old(writeScript), HEADER_SIZE, n);
              && run.taken <= HEADER_SIZE + n
              && wire == old(wire) + (msg.raw[..] + msg.Outgoing())[..run.taken]
              && writeScript == run.rest && out == SendOutcome(run.end, HEADER_SIZE + n)
      ensures out == Returned(HEADER_SIZE + SendLen(msg.Header())) ==>
                wire == old(wire) + msg.raw[..] + msg.Outgoing()
      ensures var n, used := SendLen(msg.Header()), RunSend(old(writeScript), 24, SendLen(msg.Header())).used;
              && (out == Returned(24 + n) <==> |wire| == |old(wire)| + 24 + n)
              && (out == Returned(-1) <==> WriteHard in used)
              && (out == Blocked <==> |wire| < |old(wire)| + 24 + n && WriteHard !in used)
    {
      ghost var head, body := msg.raw[..], msg.Outgoing();
      SendMeaning(writeScript, HEADER_SIZE, |body|);
      var ret, end := WriteLoop(msg.raw, HEADER_SIZE);
      assert msg.raw[..ret] == head[..ret] == (head + body)[..ret];
      if end != WriteDone {
        return SendOutcome(end, 0);
      }
      assert wire == old(wire) + head && ret == HEADER_SIZE;
      var totLen := SendTotal(msg.Header());
      if 0 < totLen {
        var count;
        count, end := WriteLoop(msg.data, totLen);
        assert msg.data[..count] == body[..count];
        TakeTwo(head, body, count);
        Associate(old(wire), head, body[..count]);
        if end != WriteDone {
          return SendOutcome(end, 0);
        }
        ret := ret + count;
      }
      out := Returned(ret);
    }

    /** comm_tcp_client_send_header and comm_*_servresp_send_header. */
    method SendHeader(msg: CommMsg) returns (out: Outcome)
      requires msg.Valid()
      modifies this`wire, this`writeScript
      ensures var run := RunWrites(old(writeScript), HEADER_SIZE);
              && run.taken <= HEADER_SIZE
              && wire == old(wire) + msg.raw[..][..run.taken]
              && writeScript == run.rest && out == SendOutcome(run.end, HEADER_SIZE)
      ensures var used := RunWrites(old(writeScript), 24).used;
              && (out == Returned(24) <==> |wire| == |old(wire)| + 24)
              && (out == Returned(-1) <==> WriteHard in used)
              && (out == Blocked <==> |wire| < |old(wire)| + 24 && WriteHard !in used)
    {
      WriteLoopTaken(writeScript, HEADER_SIZE);
      var ret, end := WriteLoop(msg.raw, HEADER_SIZE);
      assert msg.raw[..ret] == msg.raw[..][..ret];
      out := if end == WriteDone then Returned(ret) else SendOutcome(end, 0);
    }

    /** comm_tcp_client_send_data and comm_*_servresp_send_data. */
    method SendData(msg: CommMsg) returns (out: Outcome)
      requires msg.Sendable()
      modifies this`wire, this`writeScript
      ensures var n := SendLen(msg.Header());
              var run := RunWrites(old(writeScript), n);
              && run.taken <= n
              && wire == old(wire) + msg.Outgoing()[..run.taken]
              && writeScript == run.rest && out == SendOutcome(run.end, n)
      ensures var n, used := SendLen(msg.Header()), RunWrites(old(writeScript), SendLen(msg.Header())).used;
              && (out == Returned(n) <==> |wire| == |old(wire)| + n)
              && (out == Returned(-1) <==> WriteHard in used)
              && (out == Blocked <==> |wire| < |old(wire)| + n && WriteHard !in used)
    {
      WriteLoopTaken(writeScript, SendLen(msg.Header()));
      var totLen := SendTotal(msg.Header());
      if 0 < totLen {
        var ret, end := WriteLoop(msg.data, totLen);
        assert msg.data[..ret] == msg.Outgoing()[..ret];
        out := if end == WriteDone then Returned(ret) else SendOutcome(end, 0);
      } else {
        out := Returned(0);
      }
    }

    /** The read loop for one buffer, with the same lazily advanced pointer. */
    method ReadLoop(buf: array<byte>, totLen: nat) returns (ret: int, end: ReadEnd)
      requires totLen <= buf.Length
      modifies this`readScript, buf
      ensures var s := Stream(old(readScript));
              if totLen <= |s| then
                && end == ReadDone && ret == totLen
                && buf[..totLen] == s[..totLen]
                && TookExactly(old(readScript), readScript, totLen)
              else
                && end == ReadEnded(TerminalOf(old(readScript)))
                && buf[..|s|] == s
                && readScript == AfterTerminal(old(readScript))
    {
      var readLen, readCount, count, p := totLen, 0, 0, 0;
      ghost var before := readScript;
      ret := 0;
      while count < totLen && readScript != []
        invariant 0 <= count <= totLen && ret == count
        invariant 0 <= p && 0 <= readCount && p + readCount == count
        invariant readLen == totLen - count
        invariant ReadSoFar(before, buf[..count], readScript)
        decreases totLen - count, |readScript|
      {
        p := p + readCount;
        ghost var got, script := buf[..count], readScript;
        var errno;
        readCount, errno := Read(buf, p, readLen);
        assert buf[..count] == got;
        if readCount == 0 {
          ReadStops(before, got, script);
          end := ReadEnded(Eof);
          return;
        }
        if readCount == -1 {
          readCount := 0;
          if errno == EAGAIN || errno == EINTR {
            ReadSkips(before, got, script);
            continue;
          }
          ReadStops(before, got, script);
          end := ReadEnded(HardError);
          return;
        }
        assert buf[..count + readCount] == got + buf[p..p + readCount];
        Associate(got, buf[p..p + readCount], Stream(readScript));
        count := count + readCount;
        readLen := totLen - count;
        ret := ret + readCount;
      }
      if count < totLen {
        ReadStops(before, buf[..count], readScript);
        end := ReadEnded(Open);
      } else {
        SplitAt(Stream(before), buf[..totLen], Stream(readScript));
        end := ReadDone;
      }
    }

    /**
     comm_tcp_client_wait and comm_unix_client_wait. mallocOk says whether malloc succeeds. Unless
     malloc is needed and fails, the call ends as a receive should, and returns what belongs to that.
     */
    method Wait(msg: CommMsg, mallocOk: bool) returns (out: Outcome)
      requires msg.Valid()
      modifies this`readScript, msg, msg.raw
      ensures msg.Valid()
      ensures var s, script := Stream(old(readScript)), old(readScript);
              mallocOk || |s| < HEADER_SIZE || FrameLen(s) == HEADER_SIZE ==>
                && ReceivedOf(s, 0, script, ReceiveRun(Verdict(script), readScript))
                && out == WaitOutcome(Verdict(script))
      ensures var s, script := Stream(old(readScript)), old(readScript);
              if mallocOk || |s| < 24 || FrameLen(s) == 24 then
                && (out == Returned(-2) <==> !HasFrame(s) && TerminalOf(script) == Eof)
                && (out == Returned(-1) <==> !HasFrame(s) && TerminalOf(script) == HardError)
                && (out == Blocked <==> !HasFrame(s) && TerminalOf(script) == Open)
                && (HasFrame(s) ==> out == Returned(24 + |FirstMessage(s).payload|))
              else out == Returned(-1)
      ensures var s := Stream(old(readScript));
              if |s| < HEADER_SIZE then
                && out == ReadOutcome(TerminalOf(old(readScript)))
                && readScript == AfterTerminal(old(readScript))
                && msg.data == old(msg.data) && msg.socketFd == old(msg.socketFd)
              else
                var n := PayloadLen(msg.Header());
                && msg.raw[..] == s[..HEADER_SIZE]
                && msg.socketFd == socketFd
                && (n == 0 ==>
                      && out == Returned(HEADER_SIZE) && msg.data == old(msg.data)
                      && TookExactly(old(readScript), readScript, HEADER_SIZE))
                && (n > 0 && !mallocOk ==>
                      && out == Returned(COMM_STATUS_GENERIC) && msg.data == null
                      && TookExactly(old(readScript), readScript, HEADER_SIZE))
                && (n > 0 && mallocOk ==> msg.data != null && fresh(msg.data) && msg.data.Length == n)
                && (n > 0 && mallocOk && HEADER_SIZE + n <= |s| ==>
                      && out == Returned(HEADER_SIZE + n)
                      && msg.data[..] == s[HEADER_SIZE..HEADER_SIZE + n]
                      && TookExactly(old(readScript), readScript, HEADER_SIZE + n))
                && (n > 0 && mallocOk && HEADER_SIZE + n > |s| ==>
                      && out == ReadOutcome(TerminalOf(old(readScript)))
                      && readScript == AfterTerminal(old(readScript))
                      && msg.data[..|s| - HEADER_SIZE] == s[HEADER_SIZE..])
    {
      ghost var s := Stream(readScript);
      var ret, end := ReadLoop(msg.raw, HEADER_SIZE);
      if end != ReadDone {
        return ReadOutcome(end.why);
      }
      assert msg.raw[..] == s[..HEADER_SIZE];
      var totLen := ToSsize(msg.Header().msgLen);
      msg.socketFd := socketFd;
      if totLen > 0 {
        if !mallocOk {
          msg.data := null;
          return Returned(COMM_STATUS_GENERIC);
        }
        msg.data := new byte[totLen];
        var count;
        ghost var later := Stream(readScript);
        assert forall k :: 0 <= k <= |later| ==> later[k..] == s[HEADER_SIZE + k..];
        assert forall k :: 0 <= k <= |later| ==> later[..k] == s[HEADER_SIZE..HEADER_SIZE + k];
        count, end := ReadLoop(msg.data, totLen);
        if end != ReadDone {
          return ReadOutcome(end.why);
        }
        assert msg.data[..] == msg.data[..totLen];
        ret := ret + count;
      }
      out := Returned(ret);
    }
  }
}
