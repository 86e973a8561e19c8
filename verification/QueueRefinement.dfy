/** Linearizability: every run of the concurrent queue is a run of the queue its callers think of. */
module QueueRefinement {
  import opened Sequences
  import opened QueueMachine
  import opened QueueSpec

  function ConnAt(heap: map<Addr, Cell>, a: Addr): Conn {
    if a in heap then heap[a].conn else 0
  }

  function Conns(heap: map<Addr, Cell>, list: seq<Addr>): (r: seq<Conn>)
    ensures |r| == |list|
  {
    seq(|list|, i requires 0 <= i < |list| => ConnAt(heap, list[i]))
  }

  /** The nodes in the order in which they are going to be handed out, also in the middle of a drain. */
  function Order(g: Shape): seq<Addr> {
    Reverse(g.draining) + g.outgoing + Reverse(g.intake)
  }

  function Contents(s: State, g: Shape): seq<Conn> {
    Conns(s.heap, Order(g))
  }

  /** The connection in the node a thread has to itself. */
  function OwnConn(heap: map<Addr, Cell>, pc: PC): Conn {
    match OwnNode(pc)
    case Some(a) => ConnAt(heap, a)
    case None => 0
  }

  /** What the caller knows about the operation a thread is in; conn is the thread's own connection. */
  function AbstractPc(conn: Conn, queueOut: Addr, pc: PC): SpecPc {
    match pc
    case Idle => SIdle
    case InsRead(_) => SInserting(conn)
    case InsLink(_, _) => SInserting(conn)
    case InsCas(_, _) => SInserting(conn)
    case InsDone => SInserted
    case GetLock => SGetting
    case GetTest => SGetting
    case GetRead => SGetting
    case GetCas(_) => SGetting
    case Drain(head) => if head == NULL && queueOut == NULL then SGot(None) else SGetting
    case DrainRead(_, _) => SGetting
    case DrainLink(_, _, _) => SGetting
    case DrainOut(_, _) => SGetting
    case PopTest => if queueOut == NULL then SGot(None) else SGetting
    case PopTake => SGetting
    case PopRead(_) => SGetting
    case PopAdvance(_, _) => SGetting
    case GetUnlock(head) => SGot(if head == NULL then None else Some(conn))
    case GetDone(head) => SGot(if head == NULL then None else Some(conn))
    case Holding(_) => SHolding(conn)
  }

  function CallerView(s: State, t: Tid): SpecPc {
    AbstractPc(OwnConn(s.heap, Pc(s, t)), s.queueOut, Pc(s, t))
  }

  ghost predicate Refines(s: State, g: Shape, a: Spec) {
    && a.contents == Contents(s, g)
    && forall t: Tid :: SpecPcOf(a, t) == CallerView(s, t)
  }

  /**
   The linearization points: a producer's successful swap, a consumer's swap of NULL for NULL, and
   the advance of queue_out.
   */
  predicate TakesEffect(s: State, l: Label) {
    l.Tau? &&
    match Pc(s, l.tid)
    case InsCas(_, inQueue) => s.queueIn == inQueue
    case GetCas(head) => s.queueIn == head && head == NULL
    case PopAdvance(_, _) => true
    case _ => false
  }

  function SpecNext(s: State, a: Spec, l: Label): Option<Spec> {
    if !l.Tau? then SpecCall(a, l)
    else if TakesEffect(s, l) then TakeEffect(a, l.tid)
    else Some(a)
  }

  // ---------------------------------------------------------------- contents

  lemma ConnsFrame(h: map<Addr, Cell>, h': map<Addr, Cell>, list: seq<Addr>)
    requires forall x :: x in list ==> ConnAt(h', x) == ConnAt(h, x)
    ensures Conns(h', list) == Conns(h, list)
  {
    forall i | 0 <= i < |list| ensures Conns(h', list)[i] == Conns(h, list)[i] {
      assert list[i] in list;
    }
  }

  lemma OrderMembers(g: Shape, x: Addr)
    ensures x in Order(g) <==> x in g.draining || x in g.outgoing || x in g.intake
  {
    ReverseMembers(g.draining, x);
    ReverseMembers(g.intake, x);
  }

  /** A step that leaves the lists and the nodes in them alone leaves the contents alone. */
  lemma ContentsFrame(s: State, g: Shape, s': State, g': Shape)
    requires Order(g') == Order(g)
    requires forall x :: x in Order(g) ==> ConnAt(s'.heap, x) == ConnAt(s.heap, x)
    ensures Contents(s', g') == Contents(s, g)
  {
    ConnsFrame(s.heap, s'.heap, Order(g));
  }

  lemma OrderAfterPush(g: Shape, g': Shape, entry: Addr)
    requires g'.intake == [entry] + g.intake && g'.draining == g.draining && g'.outgoing == g.outgoing
    ensures Order(g') == Order(g) + [entry]
  {
    assert g'.intake[1..] == g.intake;
  }

  lemma OrderAfterDrainOut(g: Shape, g': Shape)
    requires g.draining != []
    requires g'.intake == g.intake && g'.draining == g.draining[1..] && g'.outgoing == [g.draining[0]] + g.outgoing
    ensures Order(g') == Order(g)
  {
  }

  lemma OrderAfterSteal(g: Shape, g': Shape)
    requires g.draining == [] && g.outgoing == []
    requires g'.intake == [] && g'.draining == g.intake && g'.outgoing == []
    ensures Order(g') == Order(g)
  {
  }

  lemma OrderAfterAdvance(g: Shape, g': Shape)
    requires g.draining == [] && g'.draining == [] && g.outgoing != []
    requires g'.intake == g.intake && g'.outgoing == g.outgoing[1..]
    ensures Order(g) == [g.outgoing[0]] + Order(g')
  {
  }

  /** The connection in a node never changes while the node is allocated. */
  lemma ConnKept(s: State, l: Label, x: Addr)
    requires Step(s, l).Ok? && x in s.heap
    requires l.Free? ==> x != Pc(s, l.tid).entry
    ensures x in Step(s, l).state.heap && Step(s, l).state.heap[x].conn == s.heap[x].conn
  {
  }

  lemma ListedConnsKept(s: State, g: Shape, l: Label)
    requires Invariant(s, g) && Step(s, l).Ok?
    ensures forall x :: x in Order(g) ==> ConnAt(Step(s, l).state.heap, x) == ConnAt(s.heap, x)
  {
    forall x | x in Order(g) ensures ConnAt(Step(s, l).state.heap, x) == ConnAt(s.heap, x) {
      OrderMembers(g, x);
      assert ThreadOk(s, g, l.tid);
      ConnKept(s, l, x);
    }
  }

  lemma PushContents(s: State, g: Shape, t: Tid)
    requires Invariant(s, g) && Pc(s, t).InsCas? && s.queueIn == Pc(s, t).inQueue
    ensures Contents(Step(s, Tau(t)).state, Reshape(s, g, Tau(t))) ==
            Contents(s, g) + [ConnAt(s.heap, Pc(s, t).entry)]
  {
    OrderAfterPush(g, Reshape(s, g, Tau(t)), Pc(s, t).entry);
  }

  lemma AdvanceContents(s: State, g: Shape, t: Tid)
    requires Invariant(s, g) && Pc(s, t).PopAdvance? && Step(s, Tau(t)).Ok?
    ensures Contents(s, g) ==
            [ConnAt(s.heap, Pc(s, t).head)] + Contents(Step(s, Tau(t)).state, Reshape(s, g, Tau(t)))
  {
    assert ThreadOk(s, g, t);
    OrderAfterAdvance(g, Reshape(s, g, Tau(t)));
  }

  lemma StealContents(s: State, g: Shape, t: Tid)
    requires Invariant(s, g) && Pc(s, t).GetCas? && s.queueIn == Pc(s, t).head
    ensures Contents(Step(s, Tau(t)).state, Reshape(s, g, Tau(t))) == Contents(s, g)
    ensures Pc(s, t).head == NULL ==> Contents(s, g) == []
  {
    assert ThreadOk(s, g, t);
    OrderAfterSteal(g, Reshape(s, g, Tau(t)));
    ContentsFrame(s, g, Step(s, Tau(t)).state, Reshape(s, g, Tau(t)));
  }

  lemma DrainOutContents(s: State, g: Shape, t: Tid)
    requires Invariant(s, g) && Pc(s, t).DrainOut?
    ensures Contents(Step(s, Tau(t)).state, Reshape(s, g, Tau(t))) == Contents(s, g)
  {
    assert ThreadOk(s, g, t);
    OrderAfterDrainOut(g, Reshape(s, g, Tau(t)));
    ContentsFrame(s, g, Step(s, Tau(t)).state, Reshape(s, g, Tau(t)));
  }

  lemma OtherContents(s: State, g: Shape, l: Label)
    requires Invariant(s, g) && Step(s, l).Ok?
    requires !l.Tau? || OnlyMoves(s, l) || Pc(s, l.tid).InsLink? || Pc(s, l.tid).DrainLink?
    ensures Contents(Step(s, l).state, Reshape(s, g, l)) == Contents(s, g)
  {
    ListedConnsKept(s, g, l);
    ContentsFrame(s, g, Step(s, l).state, Reshape(s, g, l));
  }

  /** A step changes the contents only when an operation takes effect, and then by that operation alone. */
  lemma ContentsStep(s: State, g: Shape, l: Label)
    requires Invariant(s, g) && Step(s, l).Ok?
    ensures var before, after := Contents(s, g), Contents(Step(s, l).state, Reshape(s, g, l));
            if !TakesEffect(s, l) then after == before
            else match Pc(s, l.tid)
              case InsCas(entry, _) => after == before + [ConnAt(s.heap, entry)]
              case PopAdvance(head, _) => before == [ConnAt(s.heap, head)] + after
              case _ => before == [] && after == []
  {
    var t := l.tid;
    if !l.Tau? || OnlyMoves(s, l) || Pc(s, t).InsLink? || Pc(s, t).DrainLink? {
      OtherContents(s, g, l);
    } else if Pc(s, t).InsCas? {
      PushContents(s, g, t);
    } else if Pc(s, t).PopAdvance? {
      AdvanceContents(s, g, t);
    } else if Pc(s, t).GetCas? {
      StealContents(s, g, t);
    } else {
      DrainOutContents(s, g, t);
    }
  }

  // ---------------------------------------------------------------- threads

  lemma OthersStay(s: State, l: Label, u: Tid)
    requires Step(s, l).Ok? && u != l.tid
    ensures Pc(Step(s, l).state, u) == Pc(s, u)
  {
  }

  /** queue_out is written only by the thread that holds the lock. */
  lemma QueueOutUnderLock(s: State, l: Label)
    requires Step(s, l).Ok? && Step(s, l).state.queueOut != s.queueOut
    ensures Critical(Pc(s, l.tid))
  {
  }

  lemma OutsideLock(conn: Conn, q: Addr, q': Addr, pc: PC)
    requires !Critical(pc)
    ensures AbstractPc(conn, q, pc) == AbstractPc(conn, q', pc)
  {
  }

  lemma OtherOwnNodeKept(s: State, g: Shape, l: Label, u: Tid)
    requires Invariant(s, g) && Step(s, l).Ok? && u != l.tid
    ensures OwnConn(Step(s, l).state.heap, Pc(s, u)) == OwnConn(s.heap, Pc(s, u))
  {
    assert ThreadOk(s, g, u) && ThreadOk(s, g, l.tid);
    if OwnNode(Pc(s, u)).Some? {
      ConnKept(s, l, OwnNode(Pc(s, u)).value);
    }
  }

  /** What the caller of another thread knows does not change. */
  lemma OtherViewKept(s: State, g: Shape, l: Label, u: Tid)
    requires Invariant(s, g) && Step(s, l).Ok? && u != l.tid
    ensures CallerView(Step(s, l).state, u) == CallerView(s, u)
  {
    var s' := Step(s, l).state;
    assert ThreadOk(s, g, u) && ThreadOk(s, g, l.tid);
    OthersStay(s, l, u);
    OtherOwnNodeKept(s, g, l, u);
    if s'.queueOut != s.queueOut {
      QueueOutUnderLock(s, l);
      OutsideLock(OwnConn(s.heap, Pc(s, u)), s.queueOut, s'.queueOut, Pc(s, u));
    }
  }

  lemma OwnViewCall(s: State, a: Spec, l: Label)
    requires Step(s, l).Ok? && !l.Tau?
    requires SpecPcOf(a, l.tid) == CallerView(s, l.tid)
    ensures SpecCall(a, l).Some?
    ensures SpecPcOf(SpecCall(a, l).value, l.tid) == CallerView(Step(s, l).state, l.tid)
  {
  }

  lemma OwnViewInInsert(s: State, g: Shape, t: Tid)
    requires Invariant(s, g) && Step(s, Tau(t)).Ok? && !TakesEffect(s, Tau(t))
    requires Pc(s, t).InsRead? || Pc(s, t).InsLink? || Pc(s, t).InsCas?
    ensures CallerView(Step(s, Tau(t)).state, t) == CallerView(s, t)
  {
    assert ThreadOk(s, g, t);
  }

  lemma OwnViewInGet(s: State, draining: seq<Addr>, t: Tid)
    requires NULL !in s.heap && LocalOk(s.heap, s.queueOut, draining, Pc(s, t))
    requires Step(s, Tau(t)).Ok? && !TakesEffect(s, Tau(t))
    requires !Pc(s, t).InsRead? && !Pc(s, t).InsLink? && !Pc(s, t).InsCas?
    ensures CallerView(Step(s, Tau(t)).state, t) == CallerView(s, t)
  {
  }

  lemma OwnViewPush(s: State, g: Shape, a: Spec, t: Tid)
    requires Invariant(s, g) && Pc(s, t).InsCas? && s.queueIn == Pc(s, t).inQueue
    requires SpecPcOf(a, t) == CallerView(s, t)
    ensures TakeEffect(a, t).Some?
    ensures SpecPcOf(TakeEffect(a, t).value, t) == CallerView(Step(s, Tau(t)).state, t)
    ensures TakeEffect(a, t).value.contents == a.contents + [ConnAt(s.heap, Pc(s, t).entry)]
  {
  }

  lemma OwnViewEmpty(s: State, g: Shape, a: Spec, t: Tid)
    requires Invariant(s, g) && Pc(s, t) == GetCas(NULL) && s.queueIn == NULL
    requires SpecPcOf(a, t) == CallerView(s, t) && a.contents == []
    ensures TakeEffect(a, t).Some?
    ensures SpecPcOf(TakeEffect(a, t).value, t) == CallerView(Step(s, Tau(t)).state, t)
    ensures TakeEffect(a, t).value.contents == []
  {
    assert LocalOk(s.heap, s.queueOut, g.draining, Pc(s, t)) by {
      assert ThreadOk(s, g, t);
    }
  }

  lemma OwnViewAdvance(s: State, g: Shape, a: Spec, t: Tid)
    requires Invariant(s, g) && Pc(s, t).PopAdvance? && Step(s, Tau(t)).Ok?
    requires SpecPcOf(a, t) == CallerView(s, t)
    requires a.contents != [] && a.contents[0] == ConnAt(s.heap, Pc(s, t).head)
    ensures TakeEffect(a, t).Some?
    ensures SpecPcOf(TakeEffect(a, t).value, t) == CallerView(Step(s, Tau(t)).state, t)
    ensures TakeEffect(a, t).value.contents == a.contents[1..]
  {
    assert LocalOk(s.heap, s.queueOut, g.draining, Pc(s, t)) by {
      assert ThreadOk(s, g, t);
    }
  }

  /** The moving thread: its caller sees a call, a return, the operation taking effect, or nothing. */
  lemma OwnViewStep(s: State, g: Shape, a: Spec, l: Label)
    requires Invariant(s, g) && Step(s, l).Ok?
    requires SpecPcOf(a, l.tid) == CallerView(s, l.tid) && a.contents == Contents(s, g)
    ensures SpecNext(s, a, l).Some?
    ensures SpecPcOf(SpecNext(s, a, l).value, l.tid) == CallerView(Step(s, l).state, l.tid)
    ensures SpecNext(s, a, l).value.contents == Contents(Step(s, l).state, Reshape(s, g, l))
  {
    var t := l.tid;
    ContentsStep(s, g, l);
    if !l.Tau? {
      OwnViewCall(s, a, l);
    } else if TakesEffect(s, l) {
      if Pc(s, t).InsCas? {
        OwnViewPush(s, g, a, t);
      } else if Pc(s, t).GetCas? {
        OwnViewEmpty(s, g, a, t);
      } else {
        OwnViewAdvance(s, g, a, t);
      }
    } else if Pc(s, t).InsRead? || Pc(s, t).InsLink? || Pc(s, t).InsCas? {
      OwnViewInInsert(s, g, t);
    } else {
      assert ThreadOk(s, g, t);
      OwnViewInGet(s, g.draining, t);
    }
  }

  lemma OthersUntouched(a: Spec, l: Label, a': Spec, u: Tid)
    requires SpecAllows(a, l, a') && u != l.tid
    ensures SpecPcOf(a', u) == SpecPcOf(a, u)
  {
  }

  /** Forward simulation, one step. */
  lemma StepRefines(s: State, g: Shape, a: Spec, l: Label)
    requires Invariant(s, g) && Step(s, l).Ok? && Refines(s, g, a)
    ensures SpecNext(s, a, l).Some? && SpecAllows(a, l, SpecNext(s, a, l).value)
    ensures Refines(Step(s, l).state, Reshape(s, g, l), SpecNext(s, a, l).value)
  {
    var s', t := Step(s, l).state, l.tid;
    assert SpecPcOf(a, t) == CallerView(s, t);
    OwnViewStep(s, g, a, l);
    var a' := SpecNext(s, a, l).value;
    forall u: Tid ensures SpecPcOf(a', u) == CallerView(s', u) {
      if u != t {
        OthersUntouched(a, l, a', u);
        OtherViewKept(s, g, l, u);
      }
    }
  }

  // ---------------------------------------------------------------- runs

  function Run(ls: seq<Label>): Outcome {
    if ls == [] then Ok(INITIAL) else
    var k := |ls| - 1;
    match Run(ls[..k])
    case Ok(s) => Step(s, ls[k])
    case Fault => Fault
    case Disabled => Disabled
  }

  /** The specification can take the same calls, returns and frees, in the same order, and end in a. */
  ghost predicate SpecRun(ls: seq<Label>, a: Spec) {
    if ls == [] then a == SPEC_INITIAL else
    var k := |ls| - 1;
    exists b :: SpecRun(ls[..k], b) && SpecAllows(b, ls[k], a)
  }

  /**
   Linearizability. Take any number of producers and consumers, any interleaving of their steps, and
   any reuse of freed addresses: no step touches unallocated memory, and there is a run of the
   first-in first-out queue with the same calls and returns, in which every operation takes effect
   at one instant inside its call, and whose log of effects is a legal sequential history.
   */
  lemma {:induction false} Linearizable(ls: seq<Label>) returns (g: Shape, a: Spec)
    ensures Run(ls) != Fault
    ensures Run(ls).Ok? ==>
              && Invariant(Run(ls).state, g) && Refines(Run(ls).state, g, a)
              && SpecRun(ls, a) && Replay(a.log) == Some(Contents(Run(ls).state, g))
  {
    g, a := NO_NODES, SPEC_INITIAL;
    if ls != [] {
      var k := |ls| - 1;
      g, a := Linearizable(ls[..k]);
      if Run(ls[..k]).Ok? {
        var s := Run(ls[..k]).state;
        NoFault(s, g, ls[k]);
        if Step(s, ls[k]).Ok? {
          StepKeepsInvariant(s, g, ls[k]);
          StepRefines(s, g, a, ls[k]);
          var b := SpecNext(s, a, ls[k]).value;
          SpecKeepsHistory(a, ls[k], b);
          g, a := Reshape(s, g, ls[k]), b;
        }
      }
    }
  }
}
