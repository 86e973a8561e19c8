/**
 The event loop of a worker for one batch of epoll events: what it reads, what it hands to the
 client, and who owns the memory it allocates on every way out of the loop.
 */
module Worker {
  import opened Sequences
  import opened Framing
  import opened SocketLoops
  import opened Epoll
  import opened Batch
  import opened Receiving

  /** comm_err_msg_t */
  class ErrMsg {
    var socketFd: int

    constructor (fd: int)
      ensures socketFd == fd
    {
      socketFd := fd;
    }
  }

  /** What the callbacks of a worker and close were called with. */
  datatype Calls = Calls(messages: seq<Message>, closed: seq<Endpoint>, reported: seq<int>)

  /** The calls after one more run, of a worker that has the callbacks said. */
  function Extend(calls: Calls, run: BatchRun<Endpoint>, toClient: bool, toError: bool): Calls {
    Calls(calls.messages + (if toClient then run.messages else []),
          calls.closed + run.closed,
          calls.reported + (if toError then FdsOf(run.closed) else []))
  }

  lemma ExtendTwice(calls: Calls, a: BatchRun<Endpoint>, b: BatchRun<Endpoint>, toClient: bool, toError: bool)
    ensures Extend(Extend(calls, a, toClient, toError), b, toClient, toError)
         == Extend(calls, Together(a, b), toClient, toError)
  {
    Associate(calls.messages, a.messages, b.messages);
    Associate(calls.closed, a.closed, b.closed);
    FdsAppend(a.closed, b.closed);
    Associate(calls.reported, FdsOf(a.closed), FdsOf(b.closed));
  }

  function FdsOf(conns: seq<Endpoint>): seq<int> {
    if conns == [] then [] else [conns[0].socketFd] + FdsOf(conns[1..])
  }

  lemma {:induction false} FdsAppend(a: seq<Endpoint>, b: seq<Endpoint>)
    ensures FdsOf(a + b) == FdsOf(a) + FdsOf(b)
  {
    if a == [] {
      assert a + b == b;
    } else {
      assert (a + b)[1..] == a[1..] + b;
      FdsAppend(a[1..], b);
    }
  }

  ghost function Scripts(events: seq<EpollEvent<Endpoint>>): (r: seq<seq<ReadResult>>)
    reads set e | e in events :: e.conn
    ensures |r| == |events| && forall i :: 0 <= i < |events| ==> r[i] == events[i].conn.readScript
  {
    if events == [] then [] else [events[0].conn.readScript] + Scripts(events[1..])
  }

  ghost function Content(msg: CommMsg): Message
    requires msg.raw.Length == HEADER_SIZE
    reads msg, msg.raw, msg.data
  {
    Message(msg.Header(), if msg.data == null then [] else msg.data[..])
  }

  class Worker {
    const hasClientFunc: bool
    const hasErrorFunc: bool
    /** What client_func was given, in order. */
    ghost var delivered: seq<Message>
    ghost var closed: seq<Endpoint>
    /** The descriptors error_func was called for. */
    ghost var reported: seq<int>
    /** Every allocation is live, or was freed, or was handed to client_func. */
    ghost var known: set<object>
    ghost var live: set<object>
    ghost var freed: set<object>
    ghost var handed: set<object>

    constructor (hasClientFunc: bool, hasErrorFunc: bool)
      ensures Valid() && known == {} && delivered == [] && closed == [] && reported == []
      ensures this.hasClientFunc == hasClientFunc && this.hasErrorFunc == hasErrorFunc
    {
      this.hasClientFunc, this.hasErrorFunc := hasClientFunc, hasErrorFunc;
      delivered, closed, reported := [], [], [];
      known, live, freed, handed := {}, {}, {}, {};
    }

    ghost predicate Valid()
      reads this
    {
      && known == live + freed + handed
      && live !! freed && live !! handed && freed !! handed
    }

    ghost function Made(): Calls
      reads this
    {
      Calls(delivered, closed, reported)
    }

    /** The records only grow, and nothing that belongs to somebody else is settled. */
    twostate predicate SettlesAll()
      reads this
    {
      old(known) <= known && old(freed) <= freed && old(handed) <= handed && old(live) <= live
    }

    /** malloc; the new object must not have been allocated before. */
    ghost method Allocate(o: object)
      requires Valid() && o !in known
      modifies this`known, this`live
      ensures Valid() && known == old(known) + {o} && live == old(live) + {o}
    {
      known, live := known + {o}, live + {o};
    }

    /** free, allowed only for what is live: a second free, or a free after hand-over, is refused. */
    ghost method Free(o: object)
      requires Valid() && o in live
      modifies this`live, this`freed
      ensures Valid() && live == old(live) - {o} && freed == old(freed) + {o}
    {
      live, freed := live - {o}, freed + {o};
    }

    /** client_func takes over the message and its data buffer. */
    ghost method ClientFunc(msg: CommMsg)
      requires Valid() && msg in live && msg.raw.Length == HEADER_SIZE
      requires msg.data != null ==> msg.data in live
      modifies this`live, this`handed, this`delivered
      ensures Valid()
      ensures live == old(live) - {msg} - (if msg.data == null then {} else {msg.data})
      ensures handed == old(handed) + {msg} + (if msg.data == null then {} else {msg.data})
      ensures delivered == old(delivered) + [Content(msg)]
    {
      var gone: set<object> := {msg} + (if msg.data == null then {} else {msg.data});
      live, handed := live - gone, handed + gone;
      delivered := delivered + [Content(msg)];
    }

    /** The payload loop: allocate the data buffer, fill it, and free both objects if the read fails. */
    method ReadPayload(conn: Endpoint, msg: CommMsg, totLen: nat) returns (progress: Progress)
      requires Valid() && msg in live && msg.data == null && 0 < totLen
      modifies this, msg`data, conn`readScript
      ensures Valid() && fresh(known - old(known)) && old(known) <= known && old(freed) <= freed
      ensures delivered == old(delivered) && handed == old(handed) && closed == old(closed) && reported == old(reported)
      ensures msg.data != null && fresh(msg.data) && msg.data.Length == totLen
      ensures progress == StillReading ==> live == old(live) + {msg.data}
      ensures progress == PollAgain ==> live == old(live) - {msg}
      ensures var s := Stream(old(conn.readScript));
              if totLen <= |s| then
                && progress == Handled && live == old(live) + {msg.data}
                && msg.data[..] == s[..totLen]
                && TookExactly(old(conn.readScript), conn.readScript, totLen)
              else
                && progress == (if TerminalOf(old(conn.readScript)) == Open then StillReading else PollAgain)
                && conn.readScript == AfterTerminal(old(conn.readScript))
    {
      var data := new byte[totLen];
      msg.data := data;
      Allocate(data);
      var count, end := conn.ReadLoop(data, totLen);
      if end == ReadDone {
        assert data[..] == data[..totLen];
        return Handled;
      }
      if end == ReadEnded(Open) {
        return StillReading;
      }
      Free(data);
      Free(msg);
      progress := PollAgain;
    }

    /** The end of a successful read: hand the message to the client, or free it if there is none. */
    method Deliver(msg: CommMsg)
      requires Valid() && msg in live && msg.Valid()
      requires msg.data != null ==> msg.data in live
      modifies this
      ensures Valid() && known == old(known) && old(freed) <= freed && old(handed) <= handed
      ensures closed == old(closed) && reported == old(reported)
      ensures live == old(live) - {msg} - (if msg.data == null then {} else {msg.data})
      ensures delivered == old(delivered) + (if hasClientFunc then
                [Content(msg)] else [])
    {
      if hasClientFunc {
        ClientFunc(msg);
      } else {
        if msg.data != null {
          Free(msg.data);
        }
        Free(msg);
      }
    }

    /** The two read loops of an event: on failure everything allocated for the message is freed. */
    method ReadMessage(conn: Endpoint, msg: CommMsg) returns (progress: Progress)
      requires Valid() && msg in live && msg.Valid() && msg.data == null
      modifies this, msg, msg.raw, conn`readScript
      ensures Valid() && fresh(known - old(known)) && old(known) <= known && old(freed) <= freed
      ensures delivered == old(delivered) && handed == old(handed) && closed == old(closed) && reported == old(reported)
      ensures msg.Valid() && (msg.data != null ==> fresh(msg.data))
      ensures progress == Handled ==>
                live == old(live) + (if msg.data == null then {} else {msg.data})
      ensures progress == PollAgain ==> live == old(live) - {msg}
      ensures progress == StillReading ==> old(live) <= live
      ensures var s := Stream(old(conn.readScript));
              if HasFrame(s) then
                && progress == Handled && Content(msg) == FirstMessage(s)
                && TookExactly(old(conn.readScript), conn.readScript, FrameLen(s))
              else
                && progress == After(TerminalOf(old(conn.readScript)))
                && conn.readScript == AfterTerminal(old(conn.readScript))
    {
      ghost var script := conn.readScript;
      ghost var s := Stream(script);
      var count, end := conn.ReadLoop(msg.raw, HEADER_SIZE);
      if end != ReadDone {
        if end == ReadEnded(Open) {
          return StillReading;
        }
        Free(msg);
        return PollAgain;
      }
      assert msg.raw[..] == s[..HEADER_SIZE];
      var totLen := ToSsize(msg.Header().msgLen);
      msg.socketFd := conn.socketFd;
      if totLen <= 0 {
        return Handled;
      }
      ghost var middle := conn.readScript;
      progress := ReadPayload(conn, msg, totLen);
      if progress == Handled {
        assert Stream(middle)[..totLen] == s[HEADER_SIZE..FrameLen(s)];
        TookTwice(script, middle, conn.readScript, HEADER_SIZE, totLen);
      }
    }

    /** An event with EPOLLIN: read one message. It ends as Receive does. */
    method HandleReadable(conn: Endpoint) returns (progress: Progress)
      requires Valid()
      modifies this, conn`readScript
      ensures Valid() && fresh(known - old(known)) && SettlesAll()
      ensures closed == old(closed) && reported == old(reported)
      ensures progress != StillReading ==> live == old(live)
      ensures var end, script := Receive(START, old(conn.readScript)).end, old(conn.readScript);
              && ReceivedOf(Stream(script), 0, script, ReceiveRun(end, conn.readScript))
              && progress == (if end.Finished? then Handled else After(end.why))
              && delivered == old(delivered) + (if end.Finished? && hasClientFunc then [end.message] else [])
              && (end.Interrupted? ==> handed == old(handed))
    {
      OneReceive(conn.readScript);
      var msg := new CommMsg();
      Allocate(msg);
      progress := ReadMessage(conn, msg);
      if progress == Handled {
        Deliver(msg);
      }
    }

    /** An error event: close the descriptor and tell error_func, with a message freed on return. */
    method HandleBroken(conn: Endpoint, mallocOk: bool)
      requires Valid()
      modifies this
      ensures Valid() && fresh(known - old(known)) && SettlesAll()
      ensures live == old(live) && delivered == old(delivered) && handed == old(handed)
      ensures closed == old(closed) + [conn]
      ensures reported == old(reported) + if hasErrorFunc && mallocOk then [conn.socketFd] else []
    {
      closed := closed + [conn];
      if hasErrorFunc && mallocOk {
        var err := new ErrMsg(conn.socketFd);
        Allocate(err);
        reported := reported + [err.socketFd];
        Free(err);
      }
    }

    method HandleEvent(event: EpollEvent<Endpoint>, mallocOk: bool) returns (progress: Progress)
      requires Valid()
      modifies this, event.conn`readScript
      ensures Valid() && fresh(known - old(known)) && SettlesAll()
      ensures progress != StillReading ==> live == old(live)
      ensures var run := EventRun(event, old(event.conn.readScript));
              && progress == run.progress
              && Made() == Extend(old(Made()), run, hasClientFunc, hasErrorFunc && mallocOk)
    {
      if event.kind == Broken {
        HandleBroken(event.conn, mallocOk);
        assert [event.conn][1..] == [] && FdsOf([event.conn]) == [event.conn.socketFd];
        progress := Handled;
      } else {
        progress := HandleReadable(event.conn);
      }
    }

    /**
     The for loop over a batch. However it is left, every object allocated in it has been freed
     exactly once or handed over exactly once, except for a message whose read is still going on.
     The client has been given the first message of every readable connection, in the order of the
     events, up to the first connection that ended, and error_func the descriptors closed so far.
     */
    method HandleBatch(events: seq<EpollEvent<Endpoint>>, mallocOk: bool) returns (progress: Progress)
      requires Valid() && Distinct(events)
      modifies this, (set e | e in events :: e.conn)`readScript
      ensures Valid() && fresh(known - old(known)) && SettlesAll()
      ensures progress != StillReading ==> live == old(live)
      ensures var run := BatchFrom(events, old(Scripts(events)), 0);
              && progress == run.progress
              && Made() == Extend(old(Made()), run, hasClientFunc, hasErrorFunc && mallocOk)
    {
      ghost var scripts := Scripts(events);
      ghost var got: BatchRun<Endpoint> := BatchRun([], [], Handled);
      var i := 0;
      while i < |events|
        invariant 0 <= i <= |events|
        invariant Valid() && fresh(known - old(known)) && SettlesAll() && live == old(live)
        invariant forall j :: i <= j < |events| ==> events[j].conn.readScript == scripts[j]
        invariant SoFar(events, scripts, i, got)
        invariant Made() == Extend(old(Made()), got, hasClientFunc, hasErrorFunc && mallocOk)
      {
        progress := HandleEvent(events[i], mallocOk);
        SoFarNext(events, scripts, i, got);
        ExtendTwice(old(Made()), got, EventRun(events[i], scripts[i]), hasClientFunc, hasErrorFunc && mallocOk);
        got := Together(got, EventRun(events[i], scripts[i]));
        if progress != Handled {
          return;
        }
        i := i + 1;
      }
      assert got.messages + [] == got.messages && got.closed + [] == got.closed;
      progress := Handled;
    }
  }
}
