/**
 The server and its clients as a state machine: one accept thread, n workers, any number of client
 connections. Everything but the queue itself is here; the queue takes part through the labels of
 its calls, returns and frees. Connections are numbered when the client connects, because the
 descriptor numbers of the program are used again after a close.
 */
module Server {
  import opened Sequences
  import opened Framing
  import opened SocketLoops
  import opened Chunks
  import opened Epoll
  import opened Receiving
  import opened Rotation
  import Q = QueueMachine

  type Conn = Q.Conn
  type WorkerId = nat

  // ---------------------------------------------------------------- connections

  /**
   One connection. pieces are the buffers the sender's write loops have still to write, the first
   of them possibly cut; wire is what the kernel has taken, of which the server has read the first
   read bytes. writeDead and readDead record a hard error or EOF, after which no byte moves.
   */
  datatype Link = Link(
    sent: seq<Message>,
    pieces: seq<seq<byte>>,
    wire: seq<byte>,
    writeDead: bool,
    closedByPeer: bool,
    read: nat,
    readDead: bool,
    decoded: seq<Message>,
    delivered: seq<Message>)

  const NEW_LINK := Link([], [], [], false, false, 0, false, [], [])

  /** The ways to send a message: in one call, or the header first and then the payload in chunks. */
  datatype Plan =
    | InOneCall(message: Message)
    | InChunks(header: Header, calls: seq<DataCall>)
  {
    /** The payload bytes total msg_len, and no chunk stands for msg_len bytes by being empty. */
    predicate Adequate() {
      match this
      case InOneCall(m) => WellFormed(m) && SendLen(m.header) == |m.payload|
      case InChunks(h, calls) => AllCallable(h, calls) && NoEmptyChunk(h, calls) && WellFormed(Meant())
    }

    function Meant(): Message {
      match this
      case InOneCall(m) => m
      case InChunks(h, calls) => Message(h, Flatten(ChunksOf(calls)))
    }

    /** The buffers of the write loops, in order; a loop with nothing to write is passed over. */
    function Buffers(): seq<seq<byte>> {
      match this
      case InOneCall(m) => [EncodeHeader(m.header)] + NonEmpty([m.payload])
      case InChunks(h, calls) => [EncodeHeader(h)] + NonEmpty(WrittenAll(h, calls))
    }
  }

  function NonEmpty(chunks: seq<seq<byte>>): seq<seq<byte>> {
    if chunks == [] then [] else
    (if chunks[0] == [] then [] else [chunks[0]]) + NonEmpty(chunks[1..])
  }

  /** One iteration of the write loop in progress. */
  function WriteStep(k: Link, r: WriteResult): Option<Link> {
    if k.pieces == [] then None
    else match r
      case WriteAgain => Some(k)
      case WriteIntr => Some(k)
      case WriteHard => Some(k.(pieces := [], writeDead := true))
      case Took(_) =>
        if k.writeDead then None else
        var n := Accepted(r, |k.pieces[0]|);
        var left := k.pieces[0][n..];
        Some(k.(wire := k.wire + k.pieces[0][..n],
                pieces := (if left == [] then [] else [left]) + k.pieces[1..]))
  }

  // ---------------------------------------------------------------- workers

  datatype WorkerPc =
    | AtTop                                  // about to call comm_get_worker_index
    | MayGet                                 // it is this worker's turn
    | InGet                                  // inside comm_queue_get
    | MayAdd(conn: Conn)                     // holds an entry, about to call epoll_ctl
    | MayFree(conn: Conn, added: bool)       // about to free the entry
    | AtPoll                                 // about to call epoll_wait
    | InBatch(events: seq<EpollEvent<Conn>>)       // the events still to be handled
    | Reading(conn: Conn, receiver: Receiver, events: seq<EpollEvent<Conn>>)

  /**
   numFds is the program's num_fds. adopted and refused are the connections epoll_ctl was ever called
   for, with and without success; they and the other numbers are not kept by the program.
   */
  datatype WorkerState = WorkerState(
    pc: WorkerPc,
    registered: set<Conn>,
    numFds: nat,
    emptyGets: nat,
    failedAdds: nat,
    turns: nat,
    adopted: set<Conn>,
    refused: set<Conn>)

  datatype AcceptorPc = Listening | GotConn(conn: Conn) | Inserting(conn: Conn)

  /** turns and rounds count turns won and completed rotations; the program does not keep them. */
  datatype Rest = Rest(
    hasClientFunc: bool,
    cur: nat,
    rounds: nat,
    workers: seq<WorkerState>,
    acceptor: AcceptorPc,
    links: map<Conn, Link>,
    accepted: set<Conn>,
    closed: set<Conn>,
    dropped: set<Conn>)

  datatype Label =
    | Queue(step: Q.Label)
    | Connect(conn: Conn)
    | StartSend(conn: Conn, plan: Plan)
    | ClientWrite(conn: Conn, result: WriteResult)
    | ClientGone(conn: Conn)
    | Accept(conn: Conn)
    | TakeTurn(w: WorkerId)
    | EpollAdd(w: WorkerId, ok: bool)
    | EpollWaitFails(w: WorkerId)
    | EpollWait(w: WorkerId, events: seq<EpollEvent<Conn>>)
    | NextEvent(w: WorkerId)
    | ReadBytes(w: WorkerId, count: nat)
    | ReadRetry(w: WorkerId)
    | ReadFails(w: WorkerId, why: Terminal)

  /** The accept thread is numbered after the workers. */
  function AcceptorTid(r: Rest): Q.Tid {
    |r.workers|
  }

  function SetWorker(r: Rest, w: WorkerId, s: WorkerState): Rest
    requires w < |r.workers|
  {
    r.(workers := r.workers[w := s])
  }

  function Goto(r: Rest, w: WorkerId, pc: WorkerPc): Rest
    requires w < |r.workers|
  {
    SetWorker(r, w, r.workers[w].(pc := pc))
  }

  function SetLink(r: Rest, c: Conn, k: Link): Rest {
    r.(links := r.links[c := k])
  }

  /** How the rest of the system takes part in a step of the queue. */
  function QueueStep(r: Rest, l: Q.Label): Option<Rest> {
    match l
    case Tau(_) => Some(r)
    case InsCall(t, conn, _, _) =>
      if t == AcceptorTid(r) && r.acceptor == GotConn(conn) then Some(r.(acceptor := Inserting(conn))) else None
    case InsRet(t) =>
      if t == AcceptorTid(r) && r.acceptor.Inserting? then Some(r.(acceptor := Listening)) else None
    case GetCall(t) =>
      if t < |r.workers| && r.workers[t].pc == MayGet then Some(Goto(r, t, InGet)) else None
    case GetRet(t, result) =>
      if t < |r.workers| && r.workers[t].pc == InGet then
        match result
        case None => Some(SetWorker(r, t, r.workers[t].(pc := AtPoll, emptyGets := r.workers[t].emptyGets + 1)))
        case Some(c) => Some(Goto(r, t, MayAdd(c)))
      else None
    case Free(t) =>
      if t < |r.workers| && r.workers[t].pc.MayFree? then
        if r.workers[t].pc.added
        then Some(SetWorker(r, t, r.workers[t].(pc := AtPoll, numFds := r.workers[t].numFds + 1)))
        else Some(SetWorker(r, t, r.workers[t].(pc := AtTop, failedAdds := r.workers[t].failedAdds + 1)))
      else None
  }

  function TurnStep(r: Rest, w: WorkerId): Option<Rest> {
    if !(w < |r.workers| && r.workers[w].pc == AtTop) then None else
    var cur := NextTurn(r.cur, w, |r.workers|);
    if w == r.cur then
      Some(SetWorker(r, w, r.workers[w].(pc := MayGet, turns := r.workers[w].turns + 1))
           .(cur := cur, rounds := if cur == 0 then r.rounds + 1 else r.rounds))
    else Some(Goto(r, w, AtPoll))
  }

  function AddStep(r: Rest, w: WorkerId, ok: bool): Option<Rest> {
    if !(w < |r.workers| && r.workers[w].pc.MayAdd?) then None else
    var s := r.workers[w];
    var c := s.pc.conn;
    if ok
    then Some(SetWorker(r, w, s.(pc := MayFree(c, true), registered := s.registered + {c}, adopted := s.adopted + {c})))
    else Some(SetWorker(r, w, s.(pc := MayFree(c, false), refused := s.refused + {c})).(dropped := r.dropped + {c}))
  }

  /** epoll reports a registered descriptor at most once in a batch. */
  predicate PossibleBatch(s: WorkerState, events: seq<EpollEvent<Conn>>) {
    && (forall e :: e in events ==> e.conn in s.registered)
    && (forall i, j :: 0 <= i < j < |events| ==> events[i].conn != events[j].conn)
  }

  function NextEventStep(r: Rest, w: WorkerId): Option<Rest> {
    if !(w < |r.workers| && r.workers[w].pc.InBatch?) then None else
    var s := r.workers[w];
    var events := s.pc.events;
    if events == [] then Some(Goto(r, w, AtTop)) else
    var c := events[0].conn;
    if events[0].kind == Broken
    then Some(SetWorker(r, w, s.(pc := InBatch(events[1..]), registered := s.registered - {c}))
              .(closed := r.closed + {c}))
    else Some(Goto(r, w, Reading(c, START, events[1..])))
  }

  /** A read of count bytes is possible: they have been written, and the connection is alive. */
  predicate CanRead(k: Link, receiver: Receiver, count: nat) {
    receiver.Valid() && 0 < count <= receiver.Wanted() && k.read + count <= |k.wire| && !k.readDead
  }

  function ReceiverAfter(k: Link, receiver: Receiver, count: nat): Receiver
    requires CanRead(k, receiver, count)
  {
    receiver.Feed(k.wire[k.read..k.read + count])
  }

  /** With the last byte of a message the client gets it. */
  function LinkAfter(hasClientFunc: bool, k: Link, receiver: Receiver, count: nat): Link
    requires CanRead(k, receiver, count)
  {
    match ReceiverAfter(k, receiver, count)
    case Complete(m) =>
      k.(read := k.read + count, decoded := k.decoded + [m],
         delivered := if hasClientFunc then k.delivered + [m] else k.delivered)
    case _ => k.(read := k.read + count)
  }

  function ReadStep(r: Rest, w: WorkerId, count: nat): Option<Rest> {
    if !(w < |r.workers| && r.workers[w].pc.Reading? && r.workers[w].pc.conn in r.links) then None else
    var pc := r.workers[w].pc;
    var k := r.links[pc.conn];
    if !CanRead(k, pc.receiver, count) then None else
    var receiver := ReceiverAfter(k, pc.receiver, count);
    var pc' := if receiver.Complete? then InBatch(pc.events) else pc.(receiver := receiver);
    Some(SetLink(Goto(r, w, pc'), pc.conn, LinkAfter(r.hasClientFunc, k, pc.receiver, count)))
  }

  /** EOF or a hard error: what was read of the message is freed, the rest of the batch abandoned. */
  function ReadFailsStep(r: Rest, w: WorkerId, why: Terminal): Option<Rest> {
    if !(w < |r.workers| && r.workers[w].pc.Reading? && r.workers[w].pc.conn in r.links) then None else
    var c := r.workers[w].pc.conn;
    var k := r.links[c];
    var possible := match why
      case Open => false
      case Eof => k.readDead || (k.closedByPeer && k.read == |k.wire|)
      case HardError => true;
    if possible then Some(SetLink(Goto(r, w, AtPoll), c, k.(readDead := true))) else None
  }

  function Step(r: Rest, l: Label): Option<Rest> {
    match l
    case Queue(step) => QueueStep(r, step)
    case Connect(c) => if c in r.links then None else Some(SetLink(r, c, NEW_LINK))
    case StartSend(c, plan) =>
      if c in r.links && r.links[c].pieces == [] && !r.links[c].closedByPeer && plan.Adequate()
      then Some(SetLink(r, c, r.links[c].(sent := r.links[c].sent + [plan.Meant()], pieces := plan.Buffers())))
      else None
    case ClientWrite(c, result) =>
      if c !in r.links then None else
      (match WriteStep(r.links[c], result)
       case None => None
       case Some(k) => Some(SetLink(r, c, k)))
    case ClientGone(c) =>
      if c in r.links
      then Some(SetLink(r, c, r.links[c].(pieces := [], writeDead := true, closedByPeer := true)))
      else None
    case Accept(c) =>
      if r.acceptor == Listening && c in r.links && c !in r.accepted
      then Some(r.(acceptor := GotConn(c), accepted := r.accepted + {c}))
      else None
    case TakeTurn(w) => TurnStep(r, w)
    case EpollAdd(w, ok) => AddStep(r, w, ok)
    case EpollWaitFails(w) =>
      if w < |r.workers| && r.workers[w].pc == AtPoll then Some(Goto(r, w, AtTop)) else None
    case EpollWait(w, events) =>
      if w < |r.workers| && r.workers[w].pc == AtPoll && PossibleBatch(r.workers[w], events)
      then Some(Goto(r, w, InBatch(events)))
      else None
    case NextEvent(w) => NextEventStep(r, w)
    case ReadBytes(w, count) => ReadStep(r, w, count)
    case ReadRetry(w) => if w < |r.workers| && r.workers[w].pc.Reading? then Some(r) else None
    case ReadFails(w, why) => ReadFailsStep(r, w, why)
  }

  predicate OfClient(l: Label) {
    l.Connect? || l.StartSend? || l.ClientWrite? || l.ClientGone? || l.Accept?
  }

  predicate OfReading(l: Label) {
    l.ReadBytes? || l.ReadRetry? || l.ReadFails?
  }

  predicate OfEpoll(l: Label) {
    l.EpollAdd? || l.EpollWaitFails? || l.EpollWait? || l.NextEvent?
  }

  /** After comm_server_init with n workers. */
  function Initially(n: nat, hasClientFunc: bool): Rest {
    Rest(hasClientFunc, 0, 0, seq(n, _ => WorkerState(AtTop, {}, 0, 0, 0, 0, {}, {})), Listening, map[], {}, {}, {})
  }
}
