/**
 The connection queue under any number of concurrent callers. Every step of a thread makes at most
 one access to shared memory, and steps of different threads interleave freely. Addresses are
 plain numbers: freeing a node makes its address available to the next malloc, so a producer's
 stale copy of queue_in may name a node that has meanwhile been handed out, freed, allocated again
 and inserted again. Touching memory that is not allocated is a Fault.
 */
module QueueMachine {
  import opened Sequences

  type Addr = nat
  type Tid = nat
  type Conn = nat

  const NULL: Addr := 0

  datatype Cell = Cell(conn: Conn, next: Addr)

  /** Where a thread is; the fields are the local variables that are still needed. */
  datatype PC =
    | Idle
    // comm_queue_insert
    | InsRead(entry: Addr)
    | InsLink(entry: Addr, inQueue: Addr)
    | InsCas(entry: Addr, inQueue: Addr)
    | InsDone
    // comm_queue_get
    | GetLock
    | GetTest
    | GetRead
    | GetCas(head: Addr)
    | Drain(head: Addr)
    | DrainRead(head: Addr, next: Addr)
    | DrainLink(head: Addr, next: Addr, out: Addr)
    | DrainOut(head: Addr, next: Addr)
    | PopTest
    | PopTake
    | PopRead(head: Addr)
    | PopAdvance(head: Addr, next: Addr)
    | GetUnlock(head: Addr)
    | GetDone(head: Addr)
    // the caller of comm_queue_get, until it frees the entry
    | Holding(entry: Addr)

  datatype State = State(
    heap: map<Addr, Cell>,
    queueIn: Addr,
    queueOut: Addr,
    owner: Option<Tid>,
    pcs: map<Tid, PC>)

  const INITIAL := State(map[], NULL, NULL, None, map[])

  function Pc(s: State, t: Tid): PC {
    if t in s.pcs then s.pcs[t] else Idle
  }

  /**
   What a step looks like from outside. InsCall allocates the entry: malloc may answer with any
   address that is not in use, and leaves junk in the next field.
   */
  datatype Label =
    | InsCall(tid: Tid, conn: Conn, addr: Addr, junk: Addr)
    | InsRet(tid: Tid)
    | GetCall(tid: Tid)
    | GetRet(tid: Tid, result: Option<Conn>)
    | Free(tid: Tid)
    | Tau(tid: Tid)

  datatype Outcome = Ok(state: State) | Fault | Disabled

  function Goto(s: State, t: Tid, pc: PC): Outcome {
    Ok(s.(pcs := s.pcs[t := pc]))
  }

  function Step(s: State, l: Label): Outcome {
    var t := l.tid;
    var pc := Pc(s, t);
    match l
    case InsCall(_, conn, addr, junk) =>
      if pc.Idle? && addr != NULL && addr !in s.heap
      then Goto(s.(heap := s.heap[addr := Cell(conn, junk)]), t, InsRead(addr))
      else Disabled
    case InsRet(_) => if pc.InsDone? then Goto(s, t, Idle) else Disabled
    case GetCall(_) => if pc.Idle? then Goto(s, t, GetLock) else Disabled
    case GetRet(_, result) =>
      if !pc.GetDone? then Disabled
      else if pc.head == NULL then (if result == None then Goto(s, t, Idle) else Disabled)
      else if pc.head !in s.heap then Fault
      else if result == Some(s.heap[pc.head].conn) then Goto(s, t, Holding(pc.head))
      else Disabled
    case Free(_) =>
      if !pc.Holding? then Disabled
      else if pc.entry !in s.heap then Fault
      else Goto(s.(heap := s.heap - {pc.entry}), t, Idle)
    case Tau(_) => TauStep(s, t)
  }

  function TauStep(s: State, t: Tid): Outcome {
    match Pc(s, t)
    case InsRead(entry) => Goto(s, t, InsLink(entry, s.queueIn))
    case InsLink(entry, inQueue) =>
      if entry !in s.heap then Fault
      else Goto(s.(heap := s.heap[entry := s.heap[entry].(next := inQueue)]), t, InsCas(entry, inQueue))
    case InsCas(entry, inQueue) =>
      if s.queueIn == inQueue then Goto(s.(queueIn := entry), t, InsDone) else Goto(s, t, InsRead(entry))
    case GetLock => if s.owner == None then Goto(s.(owner := Some(t)), t, GetTest) else Disabled
    case GetTest => Goto(s, t, if s.queueOut == NULL then GetRead else PopTest)
    case GetRead => Goto(s, t, GetCas(s.queueIn))
    case GetCas(head) =>
      if s.queueIn == head then Goto(s.(queueIn := NULL), t, Drain(head)) else Goto(s, t, GetRead)
    case Drain(head) =>
      if head == NULL then Goto(s, t, PopTest)
      else if head !in s.heap then Fault
      else Goto(s, t, DrainRead(head, s.heap[head].next))
    case DrainRead(head, next) => Goto(s, t, DrainLink(head, next, s.queueOut))
    case DrainLink(head, next, out) =>
      if head !in s.heap then Fault
      else Goto(s.(heap := s.heap[head := s.heap[head].(next := out)]), t, DrainOut(head, next))
    case DrainOut(head, next) => Goto(s.(queueOut := head), t, Drain(next))
    case PopTest => Goto(s, t, if s.queueOut == NULL then GetUnlock(NULL) else PopTake)
    case PopTake => Goto(s, t, PopRead(s.queueOut))
    case PopRead(head) =>
      if head !in s.heap then Fault else Goto(s, t, PopAdvance(head, s.heap[head].next))
    case PopAdvance(head, next) => Goto(s.(queueOut := next), t, GetUnlock(head))
    case GetUnlock(head) => Goto(s.(owner := None), t, GetDone(head))
    case _ => Disabled
  }

  // ---------------------------------------------------------------- the shape of the heap

  datatype Place = Intake | Draining | Outgoing | Held(tid: Tid)

  /** The three lists as sequences of addresses, and for every allocated node the one place it is in. */
  datatype Shape = Shape(intake: seq<Addr>, draining: seq<Addr>, outgoing: seq<Addr>, place: map<Addr, Place>)

  const NO_NODES := Shape([], [], [], map[])

  /** Following next from a visits exactly the addresses of list, all allocated, and ends in NULL. */
  predicate Chain(heap: map<Addr, Cell>, a: Addr, list: seq<Addr>)
    decreases list
  {
    if list == [] then a == NULL
    else a == list[0] && a in heap && Chain(heap, heap[a].next, list[1..])
  }

  predicate Located(place: map<Addr, Place>, list: seq<Addr>, p: Place) {
    && NoDuplicates(list)
    && (forall a :: a in list ==> a in place && place[a] == p)
    && (forall a :: a in place && place[a] == p ==> a in list)
  }

  /** The node a thread has to itself. */
  function OwnNode(pc: PC): Option<Addr> {
    match pc
    case InsRead(entry) => Some(entry)
    case InsLink(entry, _) => Some(entry)
    case InsCas(entry, _) => Some(entry)
    case GetUnlock(head) => if head == NULL then None else Some(head)
    case GetDone(head) => if head == NULL then None else Some(head)
    case Holding(entry) => Some(entry)
    case _ => None
  }

  /** Between pthread_mutex_lock and pthread_mutex_unlock. */
  predicate Critical(pc: PC) {
    match pc
    case GetTest => true
    case GetRead => true
    case GetCas(_) => true
    case Drain(_) => true
    case DrainRead(_, _) => true
    case DrainLink(_, _, _) => true
    case DrainOut(_, _) => true
    case PopTest => true
    case PopTake => true
    case PopRead(_) => true
    case PopAdvance(_, _) => true
    case GetUnlock(_) => true
    case _ => false
  }

  /** What the local variables of a thread promise. Nothing is said about a producer's inQueue. */
  predicate LocalOk(heap: map<Addr, Cell>, queueOut: Addr, draining: seq<Addr>, pc: PC) {
    match pc
    case InsCas(entry, inQueue) => entry in heap && heap[entry].next == inQueue
    case Drain(head) => Chain(heap, head, draining)
    case DrainRead(head, next) =>
      head in heap && heap[head].next == next && head != NULL && Chain(heap, head, draining)
    case DrainLink(head, next, out) =>
      && head in heap && heap[head].next == next && head != NULL && Chain(heap, head, draining)
      && out == queueOut
    case DrainOut(head, next) =>
      && draining != [] && draining[0] == head && head in heap
      && heap[head].next == queueOut && Chain(heap, next, draining[1..])
    case GetRead => queueOut == NULL && draining == []
    case GetCas(_) => queueOut == NULL && draining == []
    case PopTake => queueOut != NULL && draining == []
    case PopRead(head) => queueOut == head && head != NULL && draining == []
    case PopAdvance(head, next) =>
      queueOut == head && head != NULL && head in heap && heap[head].next == next && draining == []
    case _ => Critical(pc) ==> draining == []
  }

  predicate Owns(place: map<Addr, Place>, t: Tid, node: Option<Addr>) {
    node.Some? ==> node.value in place && place[node.value] == Held(t)
  }

  predicate ThreadOk(s: State, g: Shape, t: Tid) {
    && (Critical(Pc(s, t)) <==> s.owner == Some(t))
    && Owns(g.place, t, OwnNode(Pc(s, t)))
    && LocalOk(s.heap, s.queueOut, g.draining, Pc(s, t))
  }

  /** The lists and the bookkeeping of places, leaving the threads aside. */
  ghost predicate ListsOk(s: State, g: Shape) {
    && NULL !in s.heap
    && s.heap.Keys == g.place.Keys
    && Chain(s.heap, s.queueIn, g.intake)
    && Chain(s.heap, s.queueOut, g.outgoing)
    && Located(g.place, g.intake, Intake)
    && Located(g.place, g.draining, Draining)
    && Located(g.place, g.outgoing, Outgoing)
    && (s.owner == None ==> g.draining == [])
  }

  ghost predicate HeldOk(s: State, g: Shape) {
    forall a :: a in g.place && g.place[a].Held? ==> OwnNode(Pc(s, g.place[a].tid)) == Some(a)
  }

  ghost predicate Invariant(s: State, g: Shape) {
    ListsOk(s, g) && HeldOk(s, g) && forall t: Tid :: ThreadOk(s, g, t)
  }

  /** How a step that succeeds changes the shape. */
  function Reshape(s: State, g: Shape, l: Label): Shape {
    var t := l.tid;
    match l
    case InsCall(_, _, addr, _) => g.(place := g.place[addr := Held(t)])
    case Free(_) => if Pc(s, t).Holding? then g.(place := g.place - {Pc(s, t).entry}) else g
    case Tau(_) =>
      (match Pc(s, t)
       case InsCas(entry, inQueue) =>
         if s.queueIn == inQueue then g.(intake := [entry] + g.intake, place := g.place[entry := Intake]) else g
       case GetCas(head) =>
         if s.queueIn == head
         then g.(intake := [], draining := g.intake,
                 place := map a | a in g.place :: if g.place[a] == Intake then Draining else g.place[a])
         else g
       case DrainOut(head, _) =>
         if g.draining == [] then g else
         g.(draining := g.draining[1..], outgoing := [head] + g.outgoing, place := g.place[head := Outgoing])
       case PopAdvance(head, _) =>
         if g.outgoing == [] then g else
         g.(outgoing := g.outgoing[1..], place := g.place[head := Held(t)])
       case _ => g)
    case _ => g
  }

  // ---------------------------------------------------------------- every step keeps the invariant

  lemma InvariantInitially()
    ensures Invariant(INITIAL, NO_NODES)
  {
  }

  lemma {:induction false} ChainFrame(h: map<Addr, Cell>, h': map<Addr, Cell>, a: Addr, list: seq<Addr>)
    requires Chain(h, a, list)
    requires forall x :: x in list && x in h ==> x in h' && h'[x].next == h[x].next
    ensures Chain(h', a, list)
    decreases list
  {
    if list != [] {
      ChainFrame(h, h', h[a].next, list[1..]);
    }
  }

  lemma {:induction false} ChainMembers(h: map<Addr, Cell>, a: Addr, list: seq<Addr>, x: Addr)
    requires Chain(h, a, list) && x in list
    ensures x in h
    decreases list
  {
    if x != list[0] {
      ChainMembers(h, h[a].next, list[1..], x);
    }
  }

  /** No access to unallocated memory and no double free in any reachable state. */
  lemma NoFault(s: State, g: Shape, l: Label)
    requires Invariant(s, g)
    ensures Step(s, l) != Fault
  {
    assert ThreadOk(s, g, l.tid);
  }

  lemma LocatedPush(place: map<Addr, Place>, list: seq<Addr>, p: Place, x: Addr)
    requires Located(place, list, p) && (x in place ==> place[x] != p)
    ensures Located(place[x := p], [x] + list, p)
  {
  }

  lemma LocatedPop(place: map<Addr, Place>, list: seq<Addr>, p: Place, q: Place)
    requires Located(place, list, p) && list != [] && q != p
    ensures Located(place[list[0] := q], list[1..], p)
  {
    assert forall i :: 0 <= i < |list[1..]| ==> list[1..][i] == list[i + 1];
    forall a | a in list && a != list[0] ensures a in list[1..] {
      var i :| 0 <= i < |list| && list[i] == a;
      assert list[1..][i - 1] == a;
    }
  }

  /** Node x moves from where it was to q, and none of the lists in other places notices. */
  lemma OthersLocated(g: Shape, x: Addr, q: Place)
    requires Located(g.place, g.intake, Intake)
    requires Located(g.place, g.draining, Draining)
    requires Located(g.place, g.outgoing, Outgoing)
    ensures var was := if x in g.place then g.place[x] else q;
            && (was != Intake && q != Intake ==> Located(g.place[x := q], g.intake, Intake))
            && (was != Draining && q != Draining ==> Located(g.place[x := q], g.draining, Draining))
            && (was != Outgoing && q != Outgoing ==> Located(g.place[x := q], g.outgoing, Outgoing))
  {
  }

  /** A change of the heap that leaves the links of all listed nodes alone is seen by no list. */
  lemma ListsFrame(s: State, g: Shape, h': map<Addr, Cell>)
    requires Invariant(s, g)
    requires forall x :: x in g.place && !g.place[x].Held? ==> x in h' && h'[x].next == s.heap[x].next
    ensures Chain(h', s.queueIn, g.intake) && Chain(h', s.queueOut, g.outgoing)
    ensures forall a :: Chain(s.heap, a, g.draining) ==> Chain(h', a, g.draining)
    ensures forall a :: g.draining != [] && Chain(s.heap, a, g.draining[1..]) ==> Chain(h', a, g.draining[1..])
  {
    ChainFrame(s.heap, h', s.queueIn, g.intake);
    ChainFrame(s.heap, h', s.queueOut, g.outgoing);
    forall a | Chain(s.heap, a, g.draining) ensures Chain(h', a, g.draining) {
      ChainFrame(s.heap, h', a, g.draining);
    }
    forall a | g.draining != [] && Chain(s.heap, a, g.draining[1..]) ensures Chain(h', a, g.draining[1..]) {
      ChainFrame(s.heap, h', a, g.draining[1..]);
    }
  }

  /** The nodes other threads hold, and where everybody else stands, are as before. */
  ghost predicate Undisturbed(s: State, g: Shape, s': State, g': Shape, t: Tid) {
    && (forall u :: u != t ==> Pc(s', u) == Pc(s, u) && (s'.owner == Some(u) <==> s.owner == Some(u)))
    && (forall a :: a in g.place && g.place[a].Held? && g.place[a].tid != t ==>
          a in g'.place && g'.place[a] == g.place[a] && a in s.heap && a in s'.heap && s'.heap[a] == s.heap[a])
  }

  /** The part of memory the lock protects is as before. */
  ghost predicate SameProtected(s: State, g: Shape, s': State, g': Shape) {
    && s'.queueOut == s.queueOut && g'.draining == g.draining
    && forall a :: a in g.place && !g.place[a].Held? ==> a in s.heap && a in s'.heap && s'.heap[a] == s.heap[a]
  }

  lemma OtherThread(s: State, g: Shape, s': State, g': Shape, t: Tid, u: Tid)
    requires Invariant(s, g) && u != t && Undisturbed(s, g, s', g', t)
    requires Critical(Pc(s, u)) ==> SameProtected(s, g, s', g')
    ensures ThreadOk(s', g', u)
  {
    assert ThreadOk(s, g, u);
    if Critical(Pc(s, u)) {
      ListsFrame(s, g, s'.heap);
    }
  }

  lemma AllThreads(s: State, g: Shape, s': State, g': Shape, t: Tid)
    requires Invariant(s, g) && Undisturbed(s, g, s', g', t)
    requires SameProtected(s, g, s', g') || s.owner == Some(t)
    requires ThreadOk(s', g', t)
    ensures forall u: Tid :: ThreadOk(s', g', u)
  {
    forall u: Tid ensures ThreadOk(s', g', u) {
      if u != t {
        assert ThreadOk(s, g, u);
        OtherThread(s, g, s', g', t, u);
      }
    }
  }

  /** malloc: any address that is not in use. */
  lemma CallKeeps(s: State, g: Shape, l: Label)
    requires Invariant(s, g) && l.InsCall? && Step(s, l).Ok?
    ensures Invariant(Step(s, l).state, Reshape(s, g, l))
  {
    var s', g' := Step(s, l).state, Reshape(s, g, l);
    assert ThreadOk(s, g, l.tid);
    OthersLocated(g, l.addr, Held(l.tid));
    ListsFrame(s, g, s'.heap);
    AllThreads(s, g, s', g', l.tid);
  }

  lemma FreeKeeps(s: State, g: Shape, l: Label)
    requires Invariant(s, g) && l.Free? && Step(s, l).Ok?
    ensures Invariant(Step(s, l).state, Reshape(s, g, l))
  {
    var s', g' := Step(s, l).state, Reshape(s, g, l);
    assert ThreadOk(s, g, l.tid);
    ListsFrame(s, g, s'.heap);
    AllThreads(s, g, s', g', l.tid);
  }

  /** entry->next = in_queue: the entry is in no list. */
  lemma LinkKeeps(s: State, g: Shape, t: Tid)
    requires Invariant(s, g) && Pc(s, t).InsLink? && Step(s, Tau(t)).Ok?
    ensures Invariant(Step(s, Tau(t)).state, Reshape(s, g, Tau(t)))
  {
    var s', g' := Step(s, Tau(t)).state, Reshape(s, g, Tau(t));
    assert ThreadOk(s, g, t);
    ListsFrame(s, g, s'.heap);
    AllThreads(s, g, s', g', t);
  }

  /**
   A successful swap of a producer. Whatever happened to queue_in since it was read, the swap
   succeeds only if the entry's next field names the present top of the intake stack.
   */
  lemma PushKeeps(s: State, g: Shape, t: Tid)
    requires Invariant(s, g) && Pc(s, t).InsCas? && s.queueIn == Pc(s, t).inQueue
    ensures Invariant(Step(s, Tau(t)).state, Reshape(s, g, Tau(t)))
  {
    var s', g' := Step(s, Tau(t)).state, Reshape(s, g, Tau(t));
    assert ThreadOk(s, g, t);
    var entry := Pc(s, t).entry;
    assert g'.intake[1..] == g.intake;
    LocatedPush(g.place, g.intake, Intake, entry);
    OthersLocated(g, entry, Intake);
    AllThreads(s, g, s', g', t);
  }

  /** The swap of a consumer takes the whole intake stack into private hands. */
  lemma StealKeeps(s: State, g: Shape, t: Tid)
    requires Invariant(s, g) && Pc(s, t).GetCas? && s.queueIn == Pc(s, t).head
    ensures Invariant(Step(s, Tau(t)).state, Reshape(s, g, Tau(t)))
  {
    var s', g' := Step(s, Tau(t)).state, Reshape(s, g, Tau(t));
    assert ThreadOk(s, g, t);
    AllThreads(s, g, s', g', t);
  }

  lemma DrainLinkLists(s: State, g: Shape, t: Tid)
    requires Invariant(s, g) && Pc(s, t).DrainLink? && Step(s, Tau(t)).Ok?
    ensures ListsOk(Step(s, Tau(t)).state, Reshape(s, g, Tau(t)))
  {
    var s' := Step(s, Tau(t)).state;
    assert ThreadOk(s, g, t);
    ChainFrame(s.heap, s'.heap, s.queueIn, g.intake);
    ChainFrame(s.heap, s'.heap, s.queueOut, g.outgoing);
  }

  lemma DrainLinkThreads(s: State, g: Shape, t: Tid)
    requires Invariant(s, g) && Pc(s, t).DrainLink? && Step(s, Tau(t)).Ok?
    ensures Undisturbed(s, g, Step(s, Tau(t)).state, Reshape(s, g, Tau(t)), t)
    ensures ThreadOk(Step(s, Tau(t)).state, Reshape(s, g, Tau(t)), t)
    ensures s.owner == Some(t)
  {
    assert ThreadOk(s, g, t);
    assert g.draining != [] && g.draining[0] == Pc(s, t).head && g.place[Pc(s, t).head] == Draining;
    assert forall i :: 0 < i < |g.draining| ==> g.draining[i] != g.draining[0];
    ChainFrame(s.heap, Step(s, Tau(t)).state.heap, Pc(s, t).next, g.draining[1..]);
  }

  /** head->next = root->queue_out: only the first node of the private list is touched. */
  lemma DrainLinkKeeps(s: State, g: Shape, t: Tid)
    requires Invariant(s, g) && Pc(s, t).DrainLink? && Step(s, Tau(t)).Ok?
    ensures Invariant(Step(s, Tau(t)).state, Reshape(s, g, Tau(t)))
  {
    DrainLinkLists(s, g, t);
    DrainLinkThreads(s, g, t);
    assert ThreadOk(s, g, t);
    AllThreads(s, g, Step(s, Tau(t)).state, Reshape(s, g, Tau(t)), t);
  }

  lemma DrainOutLists(s: State, g: Shape, t: Tid)
    requires Invariant(s, g) && Pc(s, t).DrainOut?
    ensures ListsOk(Step(s, Tau(t)).state, Reshape(s, g, Tau(t)))
  {
    var s' := Step(s, Tau(t)).state;
    assert ThreadOk(s, g, t);
    var head := Pc(s, t).head;
    assert ([head] + g.outgoing)[1..] == g.outgoing;
    LocatedPop(g.place, g.draining, Draining, Outgoing);
    LocatedPush(g.place, g.outgoing, Outgoing, head);
    OthersLocated(g, head, Outgoing);
  }

  lemma DrainOutThreads(s: State, g: Shape, t: Tid)
    requires Invariant(s, g) && Pc(s, t).DrainOut?
    ensures Undisturbed(s, g, Step(s, Tau(t)).state, Reshape(s, g, Tau(t)), t)
    ensures ThreadOk(Step(s, Tau(t)).state, Reshape(s, g, Tau(t)), t)
    ensures s.owner == Some(t)
  {
    assert ThreadOk(s, g, t);
    assert g.place[Pc(s, t).head] == Draining;
    forall a | a in g.place && g.place[a].Held? ensures a in s.heap && a != Pc(s, t).head {
      assert a in s.heap.Keys;
    }
  }

  /** root->queue_out = head: the node changes from the private list to the outgoing one. */
  lemma DrainOutKeeps(s: State, g: Shape, t: Tid)
    requires Invariant(s, g) && Pc(s, t).DrainOut?
    ensures Invariant(Step(s, Tau(t)).state, Reshape(s, g, Tau(t)))
  {
    DrainOutLists(s, g, t);
    DrainOutThreads(s, g, t);
    assert ThreadOk(s, g, t);
    AllThreads(s, g, Step(s, Tau(t)).state, Reshape(s, g, Tau(t)), t);
  }

  lemma AdvanceLists(s: State, g: Shape, t: Tid)
    requires Invariant(s, g) && Pc(s, t).PopAdvance? && Step(s, Tau(t)).Ok?
    ensures ListsOk(Step(s, Tau(t)).state, Reshape(s, g, Tau(t)))
  {
    var s' := Step(s, Tau(t)).state;
    assert ThreadOk(s, g, t);
    assert g.outgoing != [] && g.outgoing[0] == Pc(s, t).head;
    LocatedPop(g.place, g.outgoing, Outgoing, Held(t));
    OthersLocated(g, Pc(s, t).head, Held(t));
  }

  lemma AdvanceThreads(s: State, g: Shape, t: Tid)
    requires Invariant(s, g) && Pc(s, t).PopAdvance? && Step(s, Tau(t)).Ok?
    ensures Undisturbed(s, g, Step(s, Tau(t)).state, Reshape(s, g, Tau(t)), t)
    ensures ThreadOk(Step(s, Tau(t)).state, Reshape(s, g, Tau(t)), t)
    ensures s.owner == Some(t)
  {
    assert ThreadOk(s, g, t);
    assert g.outgoing != [] && g.outgoing[0] == Pc(s, t).head;
    assert g.place[Pc(s, t).head] == Outgoing;
    forall a | a in g.place && g.place[a].Held? ensures a in s.heap && a != Pc(s, t).head {
      assert a in s.heap.Keys;
    }
  }

  lemma AdvanceHeld(s: State, g: Shape, t: Tid)
    requires Invariant(s, g) && Pc(s, t).PopAdvance? && Step(s, Tau(t)).Ok?
    ensures HeldOk(Step(s, Tau(t)).state, Reshape(s, g, Tau(t)))
  {
    assert ThreadOk(s, g, t);
  }

  /** root->queue_out = head->next: the first outgoing node now belongs to the caller. */
  lemma AdvanceKeeps(s: State, g: Shape, t: Tid)
    requires Invariant(s, g) && Pc(s, t).PopAdvance? && Step(s, Tau(t)).Ok?
    ensures Invariant(Step(s, Tau(t)).state, Reshape(s, g, Tau(t)))
  {
    AdvanceLists(s, g, t);
    AdvanceHeld(s, g, t);
    AdvanceThreads(s, g, t);
    assert ThreadOk(s, g, t);
    AllThreads(s, g, Step(s, Tau(t)).state, Reshape(s, g, Tau(t)), t);
  }

  /** The step changes neither the heap nor one of the lists. */
  predicate OnlyMoves(s: State, l: Label) {
    match l
    case InsCall(_, _, _, _) => false
    case Free(_) => false
    case Tau(t) =>
      (match Pc(s, t)
       case InsLink(_, _) => false
       case InsCas(_, inQueue) => s.queueIn != inQueue
       case GetCas(head) => s.queueIn != head
       case DrainLink(_, _, _) => false
       case DrainOut(_, _) => false
       case PopAdvance(_, _) => false
       case _ => true)
    case _ => true
  }

  ghost predicate Moved(s: State, g: Shape, s': State, t: Tid) {
    && s' == s.(pcs := s.pcs[t := Pc(s', t)], owner := s'.owner)
    && OwnNode(Pc(s', t)) == OwnNode(Pc(s, t))
    && (s'.owner == s.owner || (s.owner == None && s'.owner == Some(t)) || (s.owner == Some(t) && s'.owner == None))
    && (s'.owner == None ==> g.draining == [])
    && ThreadOk(s', g, t)
  }

  lemma MovedByCall(s: State, g: Shape, l: Label)
    requires Invariant(s, g) && Step(s, l).Ok? && (l.InsRet? || l.GetCall? || l.GetRet?)
    ensures Moved(s, g, Step(s, l).state, l.tid)
  {
    assert ThreadOk(s, g, l.tid);
  }

  lemma MovedInInsert(s: State, g: Shape, t: Tid)
    requires Invariant(s, g) && Step(s, Tau(t)).Ok? && OnlyMoves(s, Tau(t))
    requires Pc(s, t).InsRead? || Pc(s, t).InsCas?
    ensures Moved(s, g, Step(s, Tau(t)).state, t)
  {
    assert ThreadOk(s, g, t);
  }

  lemma MovedInGet(s: State, g: Shape, t: Tid)
    requires Invariant(s, g) && Step(s, Tau(t)).Ok? && OnlyMoves(s, Tau(t))
    requires !Pc(s, t).InsRead? && !Pc(s, t).InsCas?
    ensures Moved(s, g, Step(s, Tau(t)).state, t)
  {
    assert ThreadOk(s, g, t);
  }

  lemma MoveKeeps(s: State, g: Shape, s': State, t: Tid)
    requires Invariant(s, g) && Moved(s, g, s', t)
    ensures Invariant(s', g)
  {
    AllThreads(s, g, s', g, t);
  }

  /**
   In every interleaving: the three lists stay acyclic and disjoint from each other and from the
   nodes callers hold, no allocated node is lost, and the lock is held by at most one thread.
   */
  lemma StepKeepsInvariant(s: State, g: Shape, l: Label)
    requires Invariant(s, g) && Step(s, l).Ok?
    ensures Invariant(Step(s, l).state, Reshape(s, g, l))
  {
    if l.InsCall? {
      CallKeeps(s, g, l);
    } else if l.Free? {
      FreeKeeps(s, g, l);
    } else if !l.Tau? {
      MovedByCall(s, g, l);
      MoveKeeps(s, g, Step(s, l).state, l.tid);
    } else if OnlyMoves(s, l) {
      if Pc(s, l.tid).InsRead? || Pc(s, l.tid).InsCas? {
        MovedInInsert(s, g, l.tid);
      } else {
        MovedInGet(s, g, l.tid);
      }
      MoveKeeps(s, g, Step(s, l).state, l.tid);
    } else {
      match Pc(s, l.tid)
      case InsLink(_, _) => LinkKeeps(s, g, l.tid);
      case InsCas(_, _) => PushKeeps(s, g, l.tid);
      case GetCas(_) => StealKeeps(s, g, l.tid);
      case DrainLink(_, _, _) => DrainLinkKeeps(s, g, l.tid);
      case DrainOut(_, _) => DrainOutKeeps(s, g, l.tid);
      case PopAdvance(_, _) => AdvanceKeeps(s, g, l.tid);
    }
  }
}
