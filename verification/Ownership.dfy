/**
 Who owns a connection, over every run of the server with the queue its callers think of. Each
 accepted connection is at every moment in exactly one place.
 */
module Ownership {
  import opened Sequences
  import opened QueueSpec
  import opened Epoll
  import opened Server
  import Q = QueueMachine

  datatype Where =
    | Arriving                 // with the accept thread, not yet in the queue
    | Queued
    | Carried(w: WorkerId)     // taken from the queue, epoll_ctl not yet called
    | Registered(w: WorkerId)
    | Closed
    | Dropped                  // epoll_ctl failed

  /** One step of the server: the queue and everything else agree on the label. */
  ghost predicate ServerStep(a: Spec, r: Rest, l: Label, a': Spec, r': Rest) {
    && Step(r, l) == Some(r')
    && if l.Queue? then SpecAllows(a, l.step, a') else a' == a
  }

  /** A thread's position in the server fits its position in the queue. */
  predicate InStep(a: Spec, r: Rest, t: Q.Tid) {
    if t < |r.workers| then
      match r.workers[t].pc
      case InGet => SpecPcOf(a, t).SGetting? || SpecPcOf(a, t).SGot?
      case MayAdd(c) => SpecPcOf(a, t) == SHolding(c)
      case MayFree(c, _) => SpecPcOf(a, t) == SHolding(c)
      case _ => SpecPcOf(a, t) == SIdle
    else if t == AcceptorTid(r) && r.acceptor.Inserting? then
      SpecPcOf(a, t) == SInserting(r.acceptor.conn) || SpecPcOf(a, t) == SInserted
    else SpecPcOf(a, t) == SIdle
  }

  ghost predicate AllInStep(a: Spec, r: Rest) {
    forall t: Q.Tid :: InStep(a, r, t)
  }

  /** Connection c is to be found at x. */
  predicate At(a: Spec, r: Rest, c: Conn, x: Where) {
    match x
    case Arriving =>
      || r.acceptor == GotConn(c)
      || (r.acceptor == Inserting(c) && SpecPcOf(a, AcceptorTid(r)) == SInserting(c))
    case Queued => c in a.contents
    case Carried(w) =>
      w < |r.workers| && (SpecPcOf(a, w) == SGot(Some(c)) || r.workers[w].pc == MayAdd(c))
    case Registered(w) => w < |r.workers| && c in r.workers[w].registered
    case Closed => c in r.closed
    case Dropped => c in r.dropped
  }

  ghost predicate OwnershipOk(a: Spec, r: Rest, place: map<Conn, Where>) {
    && AllInStep(a, r)
    && place.Keys == r.accepted
    && NoDuplicates(a.contents)
    && forall c: Conn, x: Where :: At(a, r, c, x) <==> c in place && place[c] == x
  }

  function NextPlace(a: Spec, r: Rest, l: Label, a': Spec, place: map<Conn, Where>): map<Conn, Where> {
    match l
    case Accept(c) => place[c := Arriving]
    case Queue(step) =>
      if !step.Tau? || a' == a then place else
      (match SpecPcOf(a, step.tid)
       case SInserting(c) => place[c := Queued]
       case SGetting => if a.contents == [] then place else place[a.contents[0] := Carried(step.tid)]
       case _ => place)
    case EpollAdd(w, ok) =>
      if w < |r.workers| && r.workers[w].pc.MayAdd?
      then place[r.workers[w].pc.conn := if ok then Registered(w) else Dropped]
      else place
    case NextEvent(w) =>
      if w < |r.workers| && r.workers[w].pc.InBatch? && r.workers[w].pc.events != [] &&
         r.workers[w].pc.events[0].kind == Broken
      then place[r.workers[w].pc.events[0].conn := Closed]
      else place
    case _ => place
  }

  lemma OwnershipInitially(n: nat, hasClientFunc: bool)
    ensures OwnershipOk(SPEC_INITIAL, Initially(n, hasClientFunc), map[])
  {
  }

  // ---------------------------------------------------------------- positions stay in step

  lemma InStepCall(a: Spec, r: Rest, l: Q.Label, a': Spec, r': Rest)
    requires AllInStep(a, r) && ServerStep(a, r, Queue(l), a', r') && !l.Tau?
    ensures AllInStep(a', r')
  {
    forall t: Q.Tid ensures InStep(a', r', t) {
      assert InStep(a, r, t);
    }
  }

  lemma InStepTau(a: Spec, r: Rest, l: Q.Label, a': Spec, r': Rest)
    requires AllInStep(a, r) && ServerStep(a, r, Queue(l), a', r') && l.Tau?
    ensures AllInStep(a', r')
  {
    forall t: Q.Tid ensures InStep(a', r', t) {
      assert InStep(a, r, t);
    }
  }

  lemma InStepReading(a: Spec, r: Rest, l: Label, r': Rest)
    requires AllInStep(a, r) && Step(r, l) == Some(r') && OfReading(l)
    ensures AllInStep(a, r')
  {
    forall t: Q.Tid ensures InStep(a, r', t) {
      assert InStep(a, r, t);
    }
  }

  lemma InStepEpoll(a: Spec, r: Rest, l: Label, r': Rest)
    requires AllInStep(a, r) && Step(r, l) == Some(r') && (OfEpoll(l) || l.TakeTurn?)
    ensures AllInStep(a, r')
  {
    forall t: Q.Tid ensures InStep(a, r', t) {
      assert InStep(a, r, t);
    }
  }

  lemma InStepClient(a: Spec, r: Rest, l: Label, r': Rest)
    requires AllInStep(a, r) && Step(r, l) == Some(r') && OfClient(l)
    ensures AllInStep(a, r')
  {
    forall t: Q.Tid ensures InStep(a, r', t) {
      assert InStep(a, r, t);
    }
  }

  lemma InStepKept(a: Spec, r: Rest, l: Label, a': Spec, r': Rest)
    requires AllInStep(a, r) && ServerStep(a, r, l, a', r')
    ensures AllInStep(a', r')
  {
    if l.Queue? && l.step.Tau? {
      InStepTau(a, r, l.step, a', r');
    } else if l.Queue? {
      InStepCall(a, r, l.step, a', r');
    } else if OfReading(l) {
      InStepReading(a, r, l, r');
    } else if OfClient(l) {
      InStepClient(a, r, l, r');
    } else {
      InStepEpoll(a, r, l, r');
    }
  }

  // ---------------------------------------------------------------- places

  /** Nobody has moved, or only c, which has moved to x. */
  ghost predicate OnlyMoved(a: Spec, r: Rest, a': Spec, r': Rest, c: Conn, x: Where) {
    forall d: Conn, y: Where :: At(a', r', d, y) <==> if d == c then y == x else At(a, r, d, y)
  }

  ghost predicate NobodyMoved(a: Spec, r: Rest, a': Spec, r': Rest) {
    forall d: Conn, y: Where :: At(a', r', d, y) <==> At(a, r, d, y)
  }

  lemma ClientsMoveNobody(a: Spec, r: Rest, l: Label, r': Rest)
    requires Step(r, l) == Some(r') && OfClient(l) && !l.Accept?
    ensures NobodyMoved(a, r, a, r') && r'.accepted == r.accepted
  {
  }

  lemma ReadingMovesNobody(a: Spec, r: Rest, l: Label, r': Rest)
    requires Step(r, l) == Some(r') && OfReading(l)
    ensures NobodyMoved(a, r, a, r') && r'.accepted == r.accepted
  {
  }

  lemma TurnsMoveNobody(a: Spec, r: Rest, l: Label, r': Rest)
    requires Step(r, l) == Some(r') && (l.TakeTurn? || l.EpollWait? || l.EpollWaitFails?)
    ensures NobodyMoved(a, r, a, r') && r'.accepted == r.accepted
  {
  }

  lemma OnlyAt(a: Spec, r: Rest, place: map<Conn, Where>, c: Conn, x: Where, y: Where)
    requires OwnershipOk(a, r, place) && At(a, r, c, x)
    ensures At(a, r, c, y) <==> y == x
  {
  }

  lemma AcceptMoves(a: Spec, r: Rest, c: Conn, r': Rest, place: map<Conn, Where>)
    requires OwnershipOk(a, r, place) && Step(r, Accept(c)) == Some(r')
    ensures OnlyMoved(a, r, a, r', c, Arriving)
  {
    forall d: Conn, y: Where ensures At(a, r', d, y) <==> if d == c then y == Arriving else At(a, r, d, y) {
      assert At(a, r, d, y) <==> d in place && place[d] == y;
    }
  }

  lemma EpollAddMoves(a: Spec, r: Rest, w: WorkerId, ok: bool, r': Rest, place: map<Conn, Where>)
    requires OwnershipOk(a, r, place) && Step(r, EpollAdd(w, ok)) == Some(r')
    ensures At(a, r, r.workers[w].pc.conn, Carried(w)) && r'.accepted == r.accepted
    ensures OnlyMoved(a, r, a, r', r.workers[w].pc.conn, if ok then Registered(w) else Dropped)
  {
    var c := r.workers[w].pc.conn;
    var x := if ok then Registered(w) else Dropped;
    assert InStep(a, r, w);
    forall d: Conn, y: Where ensures At(a, r', d, y) <==> if d == c then y == x else At(a, r, d, y) {
      OnlyAt(a, r, place, c, Carried(w), y);
    }
  }

  lemma NextEventMoves(a: Spec, r: Rest, w: WorkerId, r': Rest, place: map<Conn, Where>)
    requires OwnershipOk(a, r, place) && Step(r, NextEvent(w)) == Some(r')
    requires r.workers[w].pc.events != [] ==> r.workers[w].pc.events[0].conn in r.workers[w].registered
    ensures r'.accepted == r.accepted
    ensures if r.workers[w].pc.events != [] && r.workers[w].pc.events[0].kind == Broken
            then At(a, r, r.workers[w].pc.events[0].conn, Registered(w)) &&
                 OnlyMoved(a, r, a, r', r.workers[w].pc.events[0].conn, Closed)
            else NobodyMoved(a, r, a, r')
  {
    if r.workers[w].pc.events != [] && r.workers[w].pc.events[0].kind == Broken {
      var c := r.workers[w].pc.events[0].conn;
      forall d: Conn, y: Where ensures At(a, r', d, y) <==> if d == c then y == Closed else At(a, r, d, y) {
        OnlyAt(a, r, place, c, Registered(w), y);
      }
    }
  }

  // ---------------------------------------------------------------- places and the queue

  lemma InsertCallsMoveNobody(a: Spec, r: Rest, l: Q.Label, a': Spec, r': Rest)
    requires AllInStep(a, r) && ServerStep(a, r, Queue(l), a', r') && (l.InsCall? || l.InsRet?)
    ensures NobodyMoved(a, r, a', r')
  {
    forall d: Conn, y: Where ensures At(a', r', d, y) <==> At(a, r, d, y) {
      assert InStep(a, r, AcceptorTid(r));
    }
  }

  lemma GetCallsMoveNobody(a: Spec, r: Rest, l: Q.Label, a': Spec, r': Rest)
    requires AllInStep(a, r) && ServerStep(a, r, Queue(l), a', r') && (l.GetCall? || l.GetRet? || l.Free?)
    ensures NobodyMoved(a, r, a', r')
  {
    assert InStep(a, r, l.tid);
    forall d: Conn, y: Where ensures At(a', r', d, y) <==> At(a, r, d, y) {
    }
  }

  /** Calls, returns and frees: who holds a connection does not depend on them. */
  lemma CallsMoveNobody(a: Spec, r: Rest, l: Q.Label, a': Spec, r': Rest)
    requires AllInStep(a, r) && ServerStep(a, r, Queue(l), a', r') && !l.Tau?
    ensures NobodyMoved(a, r, a', r') && r'.accepted == r.accepted && a'.contents == a.contents
  {
    if l.InsCall? || l.InsRet? {
      InsertCallsMoveNobody(a, r, l, a', r');
    } else {
      GetCallsMoveNobody(a, r, l, a', r');
    }
  }

  /** An insert takes effect: the connection is now in the queue. */
  lemma InsertMoves(a: Spec, r: Rest, t: Q.Tid, a': Spec, place: map<Conn, Where>)
    requires OwnershipOk(a, r, place) && TakeEffect(a, t) == Some(a') && SpecPcOf(a, t).SInserting?
    ensures At(a, r, SpecPcOf(a, t).conn, Arriving)
    ensures OnlyMoved(a, r, a', r, SpecPcOf(a, t).conn, Queued)
    ensures NoDuplicates(a'.contents)
  {
    var c := SpecPcOf(a, t).conn;
    assert InStep(a, r, t);
    assert At(a, r, c, Arriving);
    OnlyAt(a, r, place, c, Arriving, Queued);
    forall d: Conn, y: Where ensures At(a', r, d, y) <==> if d == c then y == Queued else At(a, r, d, y) {
      OnlyAt(a, r, place, c, Arriving, y);
    }
  }

  /** A get takes effect: the first connection in the queue is now with the worker. */
  lemma RemoveMoves(a: Spec, r: Rest, t: Q.Tid, a': Spec, place: map<Conn, Where>)
    requires OwnershipOk(a, r, place) && TakeEffect(a, t) == Some(a') && SpecPcOf(a, t).SGetting?
    requires a.contents != []
    ensures At(a, r, a.contents[0], Queued)
    ensures OnlyMoved(a, r, a', r, a.contents[0], Carried(t))
    ensures NoDuplicates(a'.contents)
  {
    var c := a.contents[0];
    assert InStep(a, r, t);
    assert At(a, r, c, Queued);
    forall d: Conn, y: Where ensures At(a', r, d, y) <==> if d == c then y == Carried(t) else At(a, r, d, y) {
      OnlyAt(a, r, place, c, Queued, y);
      assert d in a.contents <==> d == c || d in a.contents[1..];
      assert forall i :: 0 <= i < |a.contents[1..]| ==> a.contents[1..][i] == a.contents[i + 1];
      if y.Carried? {
        assert InStep(a, r, y.w);
      }
    }
  }

  lemma EmptyMovesNobody(a: Spec, r: Rest, t: Q.Tid, a': Spec)
    requires TakeEffect(a, t) == Some(a') && SpecPcOf(a, t).SGetting? && a.contents == []
    ensures NobodyMoved(a, r, a', r)
  {
  }

  // ---------------------------------------------------------------- batches

  /** The events a worker has still to handle concern distinct connections registered with it. */
  predicate BatchOk(s: WorkerState) {
    match s.pc
    case InBatch(events) => PossibleBatch(s, events)
    case Reading(c, _, events) =>
      PossibleBatch(s, events) && c in s.registered && forall e :: e in events ==> e.conn != c
    case _ => true
  }

  predicate BatchesOk(r: Rest) {
    forall w :: 0 <= w < |r.workers| ==> BatchOk(r.workers[w])
  }

  lemma NextEventKeepsBatches(r: Rest, w: WorkerId, r': Rest)
    requires BatchesOk(r) && Step(r, NextEvent(w)) == Some(r')
    ensures BatchesOk(r')
  {
    var s, s' := r.workers[w], r'.workers[w];
    assert BatchOk(s);
    if s.pc.events != [] {
      var events := s.pc.events;
      assert forall i :: 0 <= i < |events[1..]| ==> events[1..][i] == events[i + 1];
      assert BatchOk(s');
    }
  }

  lemma ReadingKeepsBatches(r: Rest, l: Label, r': Rest)
    requires BatchesOk(r) && Step(r, l) == Some(r') && OfReading(l)
    ensures BatchesOk(r')
  {
  }

  lemma BatchesKept(r: Rest, l: Label, r': Rest)
    requires BatchesOk(r) && Step(r, l) == Some(r')
    ensures BatchesOk(r')
  {
    if l.NextEvent? {
      NextEventKeepsBatches(r, l.w, r');
    } else if OfReading(l) {
      ReadingKeepsBatches(r, l, r');
    }
  }

  // ---------------------------------------------------------------- the invariant

  lemma MoveOne(a: Spec, r: Rest, a': Spec, r': Rest, place: map<Conn, Where>, c: Conn, x: Where)
    requires OwnershipOk(a, r, place) && OnlyMoved(a, r, a', r', c, x)
    requires AllInStep(a', r') && NoDuplicates(a'.contents) && r'.accepted == r.accepted + {c}
    ensures OwnershipOk(a', r', place[c := x])
  {
    var place' := place[c := x];
    forall d: Conn, y: Where ensures At(a', r', d, y) <==> d in place' && place'[d] == y {
      assert At(a, r, d, y) <==> d in place && place[d] == y;
    }
  }

  lemma EffectKeepsOwnership(a: Spec, r: Rest, t: Q.Tid, a': Spec, place: map<Conn, Where>)
    requires OwnershipOk(a, r, place) && TakeEffect(a, t) == Some(a') && a' != a && AllInStep(a', r)
    ensures OwnershipOk(a', r, NextPlace(a, r, Queue(Q.Tau(t)), a', place))
  {
    if SpecPcOf(a, t).SInserting? {
      InsertMoves(a, r, t, a', place);
      MoveOne(a, r, a', r, place, SpecPcOf(a, t).conn, Queued);
    } else if a.contents == [] {
      EmptyMovesNobody(a, r, t, a');
    } else {
      RemoveMoves(a, r, t, a', place);
      MoveOne(a, r, a', r, place, a.contents[0], Carried(t));
    }
  }

  lemma QueueKeepsOwnership(a: Spec, r: Rest, l: Q.Label, a': Spec, r': Rest, place: map<Conn, Where>)
    requires OwnershipOk(a, r, place) && ServerStep(a, r, Queue(l), a', r')
    ensures OwnershipOk(a', r', NextPlace(a, r, Queue(l), a', place))
  {
    InStepKept(a, r, Queue(l), a', r');
    if !l.Tau? {
      CallsMoveNobody(a, r, l, a', r');
    } else if a' != a {
      EffectKeepsOwnership(a, r, l.tid, a', place);
    }
  }

  lemma RestKeepsOwnership(a: Spec, r: Rest, l: Label, r': Rest, place: map<Conn, Where>)
    requires OwnershipOk(a, r, place) && BatchesOk(r) && Step(r, l) == Some(r') && !l.Queue?
    ensures OwnershipOk(a, r', NextPlace(a, r, l, a, place))
  {
    InStepKept(a, r, l, a, r');
    match l
    case Accept(c) =>
      AcceptMoves(a, r, c, r', place);
      MoveOne(a, r, a, r', place, c, Arriving);
    case EpollAdd(w, ok) =>
      EpollAddMoves(a, r, w, ok, r', place);
      MoveOne(a, r, a, r', place, r.workers[w].pc.conn, if ok then Registered(w) else Dropped);
    case NextEvent(w) =>
      assert BatchOk(r.workers[w]);
      NextEventMoves(a, r, w, r', place);
      if r.workers[w].pc.events != [] && r.workers[w].pc.events[0].kind == Broken {
        MoveOne(a, r, a, r', place, r.workers[w].pc.events[0].conn, Closed);
      }
    case _ =>
      if OfReading(l) {
        ReadingMovesNobody(a, r, l, r');
      } else if OfClient(l) {
        ClientsMoveNobody(a, r, l, r');
      } else {
        TurnsMoveNobody(a, r, l, r');
      }
  }

  lemma OwnershipKept(a: Spec, r: Rest, l: Label, a': Spec, r': Rest, place: map<Conn, Where>)
    requires OwnershipOk(a, r, place) && BatchesOk(r) && ServerStep(a, r, l, a', r')
    ensures OwnershipOk(a', r', NextPlace(a, r, l, a', place))
  {
    if l.Queue? {
      QueueKeepsOwnership(a, r, l.step, a', r', place);
    } else {
      RestKeepsOwnership(a, r, l, r', place);
    }
  }

  /** Conservation: every accepted connection is in exactly one place, and nothing else is anywhere. */
  lemma ExactlyOnePlace(a: Spec, r: Rest, place: map<Conn, Where>, c: Conn)
    requires OwnershipOk(a, r, place)
    ensures c in r.accepted ==> exists x :: At(a, r, c, x) && forall y :: At(a, r, c, y) ==> y == x
    ensures c !in r.accepted ==> forall x :: !At(a, r, c, x)
  {
    if c in r.accepted {
      assert At(a, r, c, place[c]);
    }
  }

  /** No two workers have one connection registered. */
  lemma RegisteredOnce(a: Spec, r: Rest, place: map<Conn, Where>, v: WorkerId, w: WorkerId, c: Conn)
    requires OwnershipOk(a, r, place)
    requires v < |r.workers| && c in r.workers[v].registered
    requires w < |r.workers| && c in r.workers[w].registered
    ensures v == w && c in r.accepted
  {
    assert At(a, r, c, Registered(v)) && At(a, r, c, Registered(w));
  }

  lemma RegisteredIsOpen(a: Spec, r: Rest, place: map<Conn, Where>, w: WorkerId, c: Conn)
    requires OwnershipOk(a, r, place) && w < |r.workers| && c in r.workers[w].registered
    ensures c in place && place[c] == Registered(w) && c !in r.closed && c !in r.dropped
  {
    assert At(a, r, c, Registered(w));
    assert At(a, r, c, Closed) <==> c in r.closed;
    assert At(a, r, c, Dropped) <==> c in r.dropped;
  }

  /** How far a connection has come on its way. */
  function Stage(x: Where): nat {
    match x
    case Arriving => 0
    case Queued => 1
    case Carried(_) => 2
    case Registered(_) => 3
    case Dropped => 3
    case Closed => 4
  }

  /**
   A connection never goes back: a step leaves it where it is or moves it to a later stage, so once
   one worker has registered it, no other worker ever will.
   */
  lemma NeverGoesBack(a: Spec, r: Rest, l: Label, a': Spec, r': Rest, place: map<Conn, Where>, c: Conn)
    requires OwnershipOk(a, r, place) && BatchesOk(r) && ServerStep(a, r, l, a', r') && c in place
    ensures var place' := NextPlace(a, r, l, a', place);
            c in place' && (place'[c] == place[c] || Stage(place'[c]) > Stage(place[c]))
    ensures var place' := NextPlace(a, r, l, a', place);
            place[c].Registered? ==> place'[c] == place[c] || place'[c] == Closed
  {
    match l
    case Queue(step) =>
      if step.Tau? && a' != a {
        if SpecPcOf(a, step.tid).SInserting? {
          InsertMoves(a, r, step.tid, a', place);
        } else if a.contents != [] {
          RemoveMoves(a, r, step.tid, a', place);
        }
      }
    case EpollAdd(w, ok) => EpollAddMoves(a, r, w, ok, r', place);
    case NextEvent(w) =>
      assert BatchOk(r.workers[w]);
      NextEventMoves(a, r, w, r', place);
    case _ =>
  }
}
