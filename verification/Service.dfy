/**
 What the system gets done: a worker whose turn it is, left alone, takes the first connection out of
 the queue and registers it, and the accept thread, left alone, puts a connection into the queue. The
 queue may be in any state other threads have left it in, short of holding its lock.
 */
module Service {
  import opened Sequences
  import opened QueueSpec
  import opened QueueRefinement
  import opened QueueCompletion
  import opened Epoll
  import opened Server
  import opened Ownership
  import opened EndToEnd
  import Q = QueueMachine

  /** The steps ls, one after the other, from s. */
  function SystemExec(s: System, ls: seq<Label>): EndToEnd.Outcome
    decreases |ls|
  {
    if ls == [] then Running(s) else
    match SystemStep(s, ls[0])
    case Running(s') => SystemExec(s', ls[1..])
    case Fault => EndToEnd.Fault
    case Disabled => EndToEnd.Disabled
  }

  lemma {:induction false} ExecAppend(s: System, ls: seq<Label>, more: seq<Label>, s': System)
    requires SystemExec(s, ls) == Running(s')
    ensures SystemExec(s, ls + more) == SystemExec(s', more)
    decreases |ls|
  {
    if ls == [] {
      assert ls + more == more;
    } else {
      assert (ls + more)[1..] == ls[1..] + more;
      ExecAppend(SystemStep(s, ls[0]).system, ls[1..], more, s');
    }
  }

  lemma ExecSnoc(s: System, ls: seq<Label>, s': System, l: Label, s'': System)
    requires SystemExec(s, ls) == Running(s') && SystemStep(s', l) == Running(s'')
    ensures SystemExec(s, ls + [l]) == Running(s'')
  {
    ExecAppend(s, ls, [l], s');
    assert [l][1..] == [];
  }

  /** n steps of thread t inside an operation of the queue. */
  function Taus(t: Q.Tid, n: nat): (ls: seq<Label>)
    ensures |ls| == n
  {
    if n == 0 then [] else [Queue(Q.Tau(t))] + Taus(t, n - 1)
  }

  lemma {:induction false} TausAreAlone(q: Q.State, r: Rest, t: Q.Tid, n: nat, q': Q.State)
    requires Alone(q, t, n) == Q.Ok(q')
    ensures SystemExec(System(q, r), Taus(t, n)) == Running(System(q', r))
    decreases n
  {
    if n > 0 {
      assert Taus(t, n)[1..] == Taus(t, n - 1);
      TausAreAlone(Q.Step(q, Q.Tau(t)).state, r, t, n - 1, q');
    }
  }

  lemma QueueSteps(q: Q.State, r: Rest, l: Q.Label, r': Rest)
    requires Q.Step(q, l).Ok? && QueueStep(r, l) == Some(r')
    ensures SystemStep(System(q, r), Queue(l)) == Running(System(Q.Step(q, l).state, r'))
  {
  }

  /** The queue half of a state, with everything that is known of it. */
  ghost predicate QueueOk(q: Q.State, g: Q.Shape, a: Spec) {
    Q.Invariant(q, g) && Refines(q, g, a)
  }

  /** A call or a return of the queue that its caller is ready for. */
  lemma CallerStep(q: Q.State, g: Q.Shape, a: Spec, l: Q.Label)
    requires QueueOk(q, g, a) && Q.Step(q, l).Ok? && !l.Tau?
    ensures SpecCall(a, l).Some? && QueueOk(Q.Step(q, l).state, Q.Reshape(q, g, l), SpecCall(a, l).value)
  {
    Q.StepKeepsInvariant(q, g, l);
    StepRefines(q, g, a, l);
  }

  lemma IdleView(q: Q.State, g: Q.Shape, a: Spec, t: Q.Tid)
    requires QueueOk(q, g, a)
    ensures SpecPcOf(a, t) == SIdle ==> Q.Pc(q, t).Idle?
    ensures SpecPcOf(a, t).SGot? && (Q.Pc(q, t).InsDone? || Q.Pc(q, t).GetDone?) ==> Q.Pc(q, t).GetDone?
    ensures SpecPcOf(a, t).SInserted? ==> Q.Pc(q, t).InsDone?
    ensures SpecPcOf(a, t).SHolding? ==> Q.Pc(q, t).Holding?
  {
    assert SpecPcOf(a, t) == CallerView(q, t);
  }

  // ---------------------------------------------------------------- whole calls

  /** A whole comm_queue_get by an idle thread, up to its return. */
  lemma GetRuns(q: Q.State, g: Q.Shape, a: Spec, t: Q.Tid)
    returns (n: nat, result: Option<Conn>, q1: Q.State, q2: Q.State, q3: Q.State, g3: Q.Shape, a3: Spec)
    requires QueueOk(q, g, a) && SpecPcOf(a, t) == SIdle && q.owner == None
    ensures Q.Step(q, Q.GetCall(t)) == Q.Ok(q1) && Alone(q1, t, n) == Q.Ok(q2)
    ensures Q.Step(q2, Q.GetRet(t, result)) == Q.Ok(q3) && QueueOk(q3, g3, a3)
    ensures n <= 4 * (|g.intake| + |g.draining|) + 10
    ensures if a.contents == [] then result == None && a3.contents == []
            else result == Some(a.contents[0]) && a3.contents == a.contents[1..]
    ensures SpecPcOf(a3, t) == if result.Some? then SHolding(result.value) else SIdle
  {
    IdleView(q, g, a, t);
    CallersAreNeverRefused(q, g, t, 0, 0, 0, None);
    CallerStep(q, g, a, Q.GetCall(t));
    q1 := Q.Step(q, Q.GetCall(t)).state;
    var a1 := SpecCall(a, Q.GetCall(t)).value;
    var g2, a2;
    LeftIsBounded(q1, g, t);
    n, q2, g2, a2 := CompletesWith(q1, g, a1, t);
    result := SpecPcOf(a2, t).result;
    IdleView(q2, g2, a2, t);
    assert SpecPcOf(a2, t) == CallerView(q2, t);
    CallersAreNeverRefused(q2, g2, t, 0, 0, 0, result);
    CallerStep(q2, g2, a2, Q.GetRet(t, result));
    q3, g3 := Q.Step(q2, Q.GetRet(t, result)).state, Q.Reshape(q2, g2, Q.GetRet(t, result));
    a3 := SpecCall(a2, Q.GetRet(t, result)).value;
  }

  /** A whole comm_queue_insert by an idle thread, with an entry at any free address. */
  lemma InsertRuns(q: Q.State, g: Q.Shape, a: Spec, t: Q.Tid, c: Conn, addr: Q.Addr, junk: Q.Addr)
    returns (n: nat, q1: Q.State, q2: Q.State, q3: Q.State, g3: Q.Shape, a3: Spec)
    requires QueueOk(q, g, a) && SpecPcOf(a, t) == SIdle && addr != Q.NULL && addr !in q.heap
    ensures Q.Step(q, Q.InsCall(t, c, addr, junk)) == Q.Ok(q1) && Alone(q1, t, n) == Q.Ok(q2)
    ensures Q.Step(q2, Q.InsRet(t)) == Q.Ok(q3) && QueueOk(q3, g3, a3)
    ensures n <= 5 && a3.contents == a.contents + [c] && SpecPcOf(a3, t) == SIdle
  {
    IdleView(q, g, a, t);
    var call := Q.InsCall(t, c, addr, junk);
    CallersAreNeverRefused(q, g, t, c, addr, junk, None);
    CallerStep(q, g, a, call);
    q1 := Q.Step(q, call).state;
    var g1, a1 := Q.Reshape(q, g, call), SpecCall(a, call).value;
    var g2, a2;
    LeftIsBounded(q1, g1, t);
    n, q2, g2, a2 := CompletesWith(q1, g1, a1, t);
    IdleView(q2, g2, a2, t);
    CallersAreNeverRefused(q2, g2, t, 0, 0, 0, None);
    CallerStep(q2, g2, a2, Q.InsRet(t));
    q3, g3, a3 := Q.Step(q2, Q.InsRet(t)).state, Q.Reshape(q2, g2, Q.InsRet(t)), SpecCall(a2, Q.InsRet(t)).value;
  }

  // ---------------------------------------------------------------- a worker's turn

  /** What a turn and a get make of everything but the queue. */
  lemma RestOfTurn(r: Rest, w: WorkerId, result: Option<Conn>) returns (r1: Rest, r2: Rest, r3: Rest)
    requires w < |r.workers| && r.workers[w].pc == AtTop && r.cur == w
    ensures Step(r, TakeTurn(w)) == Some(r1) && QueueStep(r1, Q.GetCall(w)) == Some(r2)
    ensures QueueStep(r2, Q.GetRet(w, result)) == Some(r3)
    ensures var s := r.workers[w];
            r3 == r.(cur := (w + 1) % |r.workers|, rounds := r3.rounds,
                     workers := r.workers[w := s.(turns := s.turns + 1,
                       pc := if result.Some? then MayAdd(result.value) else AtPoll,
                       emptyGets := if result.Some? then s.emptyGets else s.emptyGets + 1)])
  {
    r1 := TurnStep(r, w).value;
    r2 := Goto(r1, w, InGet);
    r3 := QueueStep(r2, Q.GetRet(w, result)).value;
  }

  lemma RestOfAdd(r: Rest, w: WorkerId, c: Conn, ok: bool) returns (r2: Rest, r3: Rest)
    requires w < |r.workers| && r.workers[w].pc == MayAdd(c)
    ensures Step(r, EpollAdd(w, ok)) == Some(r2)
    ensures QueueStep(r2, Q.Free(w)) == Some(r3)
    ensures var s := r.workers[w];
            r3 == if ok
              then r.(workers := r.workers[w := s.(pc := AtPoll, registered := s.registered + {c},
                                                   numFds := s.numFds + 1, adopted := s.adopted + {c})])
              else r.(dropped := r.dropped + {c},
                      workers := r.workers[w := s.(pc := AtTop, failedAdds := s.failedAdds + 1, refused := s.refused + {c})])
  {
    r2 := AddStep(r, w, ok).value;
    r3 := QueueStep(r2, Q.Free(w)).value;
  }

  lemma RestSteps(q: Q.State, r: Rest, l: Label, r': Rest)
    requires !l.Queue? && Step(r, l) == Some(r')
    ensures SystemStep(System(q, r), l) == Running(System(q, r'))
  {
  }

  /** The run of a get by worker w, from its turn to the return. */
  lemma TurnGets(q: Q.State, g: Q.Shape, a: Spec, r: Rest, w: WorkerId)
    returns (ls: seq<Label>, result: Option<Conn>, q': Q.State, g': Q.Shape, a': Spec, r': Rest)
    requires QueueOk(q, g, a) && SpecPcOf(a, w) == SIdle && q.owner == None
    requires w < |r.workers| && r.workers[w].pc == AtTop && r.cur == w
    ensures SystemExec(System(q, r), ls) == Running(System(q', r')) && |ls| <= 4 * (|g.intake| + |g.draining|) + 13
    ensures QueueOk(q', g', a')
    ensures result == if a.contents == [] then None else Some(a.contents[0])
    ensures a'.contents == if a.contents == [] then [] else a.contents[1..]
    ensures SpecPcOf(a', w) == if result.Some? then SHolding(result.value) else SIdle
    ensures var s := r.workers[w];
            r' == r.(cur := (w + 1) % |r.workers|, rounds := r'.rounds,
                     workers := r.workers[w := s.(turns := s.turns + 1,
                       pc := if result.Some? then MayAdd(result.value) else AtPoll,
                       emptyGets := if result.Some? then s.emptyGets else s.emptyGets + 1)])
  {
    var n, q1, q2;
    n, result, q1, q2, q', g', a' := GetRuns(q, g, a, w);
    var r1, r2;
    r1, r2, r' := RestOfTurn(r, w, result);
    RestSteps(q, r, TakeTurn(w), r1);
    QueueSteps(q, r1, Q.GetCall(w), r2);
    TausAreAlone(q1, r2, w, n, q2);
    QueueSteps(q2, r2, Q.GetRet(w, result), r');
    ls := CallRun(System(q, r), System(q, r1), Q.GetCall(w), System(q1, r2), w, n, System(q2, r2),
                  Q.GetRet(w, result), System(q', r'), TakeTurn(w));
  }

  /** A step, a call, the inside of the call, and its return, put together. */
  lemma CallRun(s: System, s1: System, call: Q.Label, s2: System, t: Q.Tid, n: nat, s3: System, ret: Q.Label, s4: System,
                first: Label) returns (ls: seq<Label>)
    requires SystemStep(s, first) == Running(s1) && SystemStep(s1, Queue(call)) == Running(s2)
    requires SystemExec(s2, Taus(t, n)) == Running(s3) && SystemStep(s3, Queue(ret)) == Running(s4)
    ensures SystemExec(s, ls) == Running(s4) && |ls| == n + 3
  {
    assert SystemExec(s, []) == Running(s);
    ExecSnoc(s, [], s, first, s1);
    ExecSnoc(s, [] + [first], s1, Queue(call), s2);
    var two := [] + [first] + [Queue(call)];
    ExecAppend(s, two, Taus(t, n), s2);
    ExecSnoc(s, two + Taus(t, n), s3, Queue(ret), s4);
    ls := two + Taus(t, n) + [Queue(ret)];
  }

  /** The end of a turn that brought an entry: epoll_ctl, and the free. */
  lemma AddAndFree(q: Q.State, g: Q.Shape, a: Spec, r: Rest, w: WorkerId, c: Conn, ok: bool)
    returns (q': Q.State, g': Q.Shape, a': Spec, r': Rest)
    requires QueueOk(q, g, a) && SpecPcOf(a, w) == SHolding(c)
    requires w < |r.workers| && r.workers[w].pc == MayAdd(c)
    ensures SystemExec(System(q, r), [EpollAdd(w, ok)] + [Queue(Q.Free(w))]) == Running(System(q', r'))
    ensures QueueOk(q', g', a') && a'.contents == a.contents
    ensures var s := r.workers[w];
            r' == if ok
              then r.(workers := r.workers[w := s.(pc := AtPoll, registered := s.registered + {c},
                                                   numFds := s.numFds + 1, adopted := s.adopted + {c})])
              else r.(dropped := r.dropped + {c},
                      workers := r.workers[w := s.(pc := AtTop, failedAdds := s.failedAdds + 1, refused := s.refused + {c})])
  {
    var r2;
    r2, r' := RestOfAdd(r, w, c, ok);
    IdleView(q, g, a, w);
    CallersAreNeverRefused(q, g, w, 0, 0, 0, None);
    CallerStep(q, g, a, Q.Free(w));
    q', g', a' := Q.Step(q, Q.Free(w)).state, Q.Reshape(q, g, Q.Free(w)), SpecCall(a, Q.Free(w)).value;
    RestSteps(q, r, EpollAdd(w, ok), r2);
    QueueSteps(q, r2, Q.Free(w), r');
    assert SystemExec(System(q, r), []) == Running(System(q, r));
    ExecSnoc(System(q, r), [], System(q, r), EpollAdd(w, ok), System(q, r2));
    assert [] + [EpollAdd(w, ok)] == [EpollAdd(w, ok)];
    ExecSnoc(System(q, r), [EpollAdd(w, ok)], System(q, r2), Queue(Q.Free(w)), System(q', r'));
  }

  /** What a turn made of everything but the queue, if it found this at its front: nothing else changed. */
  predicate TurnDone(r: Rest, w: WorkerId, front: Option<Conn>, ok: bool, r': Rest) {
    && |r'.workers| == |r.workers| && w < |r.workers|
    && r' == r.(cur := (w + 1) % |r.workers|, rounds := r'.rounds, workers := r'.workers, dropped := r'.dropped)
    && r'.workers == r.workers[w := r'.workers[w]]
    && var before, after := r.workers[w], r'.workers[w];
       match front
       case None =>
         && after.pc == AtPoll && after.registered == before.registered && after.emptyGets == before.emptyGets + 1
         && after.numFds == before.numFds && r'.dropped == r.dropped
       case Some(c) =>
         if ok then
           && after.pc == AtPoll && after.registered == before.registered + {c}
           && after.numFds == before.numFds + 1 && r'.dropped == r.dropped
         else
           && after.pc == AtTop && after.registered == before.registered
           && after.numFds == before.numFds && r'.dropped == r.dropped + {c}
  }

  lemma TurnWith(q: Q.State, g: Q.Shape, a: Spec, r: Rest, w: WorkerId, ok: bool)
    returns (ls: seq<Label>, front: Option<Conn>, s': System, g': Q.Shape, a': Spec)
    requires QueueOk(q, g, a) && SpecPcOf(a, w) == SIdle && q.owner == None
    requires w < |r.workers| && r.workers[w].pc == AtTop && r.cur == w
    ensures SystemExec(System(q, r), ls) == Running(s') && |ls| <= 4 * (|g.intake| + |g.draining|) + 15
    ensures QueueOk(s'.queue, g', a') && TurnDone(r, w, front, ok, s'.rest)
    ensures front == if a.contents == [] then None else Some(a.contents[0])
    ensures a'.contents == if a.contents == [] then [] else a.contents[1..]
  {
    var q1, r1;
    ls, front, q1, g', a', r1 := TurnGets(q, g, a, r, w);
    s' := System(q1, r1);
    if front.Some? {
      var two := [EpollAdd(w, ok)] + [Queue(Q.Free(w))];
      var q2, r2;
      q2, g', a', r2 := AddAndFree(q1, g', a', r1, w, front.value, ok);
      ExecAppend(System(q, r), ls, two, s');
      ls, s' := ls + two, System(q2, r2);
    }
  }

  /**
   From any state the system can be in: a worker at the top of its loop whose turn it is, left alone
   while nobody holds the lock of the queue, comes to epoll_wait in a bounded number of steps with the
   first connection of the queue registered. Only if the queue is empty does it come there with
   nothing, and only if epoll_ctl fails does it drop the connection and go back to the top.
   */
  lemma TurnAdopts(s: System, x: Witness, w: WorkerId, ok: bool) returns (ls: seq<Label>, s': System, g': Q.Shape, a': Spec)
    requires SystemOk(s, x) && w < |s.rest.workers| && s.rest.workers[w].pc == AtTop && s.rest.cur == w
    requires s.queue.owner == None
    ensures SystemExec(s, ls) == Running(s') && |ls| <= 4 * (|x.shape.intake| + |x.shape.draining|) + 15
    ensures QueueOk(s'.queue, g', a')
    ensures TurnDone(s.rest, w, if x.spec.contents == [] then None else Some(x.spec.contents[0]), ok, s'.rest)
    ensures a'.contents == if x.spec.contents == [] then [] else x.spec.contents[1..]
  {
    assert InStep(x.spec, s.rest, w);
    var front;
    ls, front, s', g', a' := TurnWith(s.queue, x.shape, x.spec, s.rest, w, ok);
  }

  // ---------------------------------------------------------------- a new connection

  lemma RestOfAccept(r: Rest, c: Conn, addr: Q.Addr, junk: Q.Addr) returns (r1: Rest, r2: Rest, r3: Rest)
    requires r.acceptor == Listening && c in r.links && c !in r.accepted
    ensures Step(r, Accept(c)) == Some(r1)
    ensures QueueStep(r1, Q.InsCall(AcceptorTid(r), c, addr, junk)) == Some(r2)
    ensures QueueStep(r2, Q.InsRet(AcceptorTid(r))) == Some(r3)
    ensures r3 == r.(accepted := r.accepted + {c})
  {
    r1 := r.(acceptor := GotConn(c), accepted := r.accepted + {c});
    r2 := r1.(acceptor := Inserting(c));
    r3 := r2.(acceptor := Listening);
  }

  /**
   From any state the system can be in, whatever the workers are doing to the queue: the accept
   thread, left alone with a connection and any free address for its entry, puts the connection at
   the end of the queue in at most eight steps and listens again.
   */
  lemma AcceptEnqueues(s: System, x: Witness, c: Conn, addr: Q.Addr, junk: Q.Addr)
    returns (ls: seq<Label>, s': System, g': Q.Shape, a': Spec)
    requires SystemOk(s, x) && s.rest.acceptor == Listening && c in s.rest.links && c !in s.rest.accepted
    requires addr != Q.NULL && addr !in s.queue.heap
    ensures SystemExec(s, ls) == Running(s') && |ls| <= 8
    ensures QueueOk(s'.queue, g', a') && a'.contents == x.spec.contents + [c]
    ensures s'.rest == s.rest.(accepted := s.rest.accepted + {c})
  {
    var t := AcceptorTid(s.rest);
    assert InStep(x.spec, s.rest, t);
    var n, q1, q2, q3;
    n, q1, q2, q3, g', a' := InsertRuns(s.queue, x.shape, x.spec, t, c, addr, junk);
    var r1, r2, r3 := RestOfAccept(s.rest, c, addr, junk);
    s' := System(q3, r3);
    RestSteps(s.queue, s.rest, Accept(c), r1);
    QueueSteps(s.queue, r1, Q.InsCall(t, c, addr, junk), r2);
    TausAreAlone(q1, r2, t, n, q2);
    QueueSteps(q2, r2, Q.InsRet(t), r3);
    ls := CallRun(s, System(s.queue, r1), Q.InsCall(t, c, addr, junk), System(q1, r2), t, n, System(q2, r2), Q.InsRet(t), s',
                  Accept(c));
  }

  // ---------------------------------------------------------------- what the surroundings may do

  /** Clients connect, begin to send, and go, connections arrive, and epoll reports, whenever they may. */
  lemma SurroundingsAreNeverRefused(r: Rest, c: Conn, plan: Plan, w: WorkerId, events: seq<EpollEvent<Conn>>)
    ensures Step(r, Connect(c)).Some? <==> c !in r.links
    ensures Step(r, StartSend(c, plan)).Some? <==>
              c in r.links && r.links[c].pieces == [] && !r.links[c].closedByPeer && plan.Adequate()
    ensures Step(r, ClientGone(c)).Some? <==> c in r.links
    ensures Step(r, Accept(c)).Some? <==> r.acceptor == Listening && c in r.links && c !in r.accepted
    ensures Step(r, EpollWaitFails(w)).Some? <==> w < |r.workers| && r.workers[w].pc == AtPoll
    ensures Step(r, EpollWait(w, events)).Some? <==>
              && w < |r.workers| && r.workers[w].pc == AtPoll
              && (forall i :: 0 <= i < |events| ==> events[i].conn in r.workers[w].registered)
              && (forall i, j :: 0 <= i < j < |events| ==> events[i].conn != events[j].conn)
  {
  }

  /** A worker whose turn it is not goes on to epoll_wait at once; after a poll it works on what was reported. */
  lemma WorkersGoOn(r: Rest, w: WorkerId, events: seq<EpollEvent<Conn>>)
    requires w < |r.workers|
    ensures r.workers[w].pc == AtTop && r.cur != w ==> Step(r, TakeTurn(w)) == Some(Goto(r, w, AtPoll))
    ensures r.workers[w].pc == AtPoll ==> Step(r, EpollWaitFails(w)) == Some(Goto(r, w, AtTop))
    ensures Step(r, EpollWait(w, events)).Some? ==> Step(r, EpollWait(w, events)) == Some(Goto(r, w, InBatch(events)))
  {
  }
}
