/**
 The whole system: accept thread, workers, clients and the queue of QueueMachine with its
 compare-and-swap steps, interleaved in any way. Every run of it is a run of the server with the
 queue its callers think of, so what was proved of that server holds here.
 */
module EndToEnd {
  import opened Sequences
  import opened QueueSpec
  import opened QueueRefinement
  import opened Server
  import opened Adoption
  import opened Ownership
  import opened Delivery
  import opened Counting
  import Q = QueueMachine

  datatype System = System(queue: Q.State, rest: Rest)

  datatype Outcome = Running(system: System) | Fault | Disabled

  function SystemStep(s: System, l: Label): Outcome {
    match l
    case Queue(step) =>
      (match Q.Step(s.queue, step)
       case Fault => Fault
       case Disabled => Disabled
       case Ok(queue) =>
         match Step(s.rest, l)
         case None => Disabled
         case Some(rest) => Running(System(queue, rest)))
    case _ =>
      match Step(s.rest, l)
      case None => Disabled
      case Some(rest) => Running(System(s.queue, rest))
  }

  /** The state after comm_server_init with n workers and the steps ls. */
  function SystemRun(n: nat, hasClientFunc: bool, ls: seq<Label>): Outcome {
    if ls == [] then Running(System(Q.INITIAL, Initially(n, hasClientFunc))) else
    var k := |ls| - 1;
    match SystemRun(n, hasClientFunc, ls[..k])
    case Running(s) => SystemStep(s, ls[k])
    case Fault => Fault
    case Disabled => Disabled
  }

  /** What witnesses the invariant: the shape of the heap, the queue it stands for, the places. */
  datatype Witness = Witness(shape: Q.Shape, spec: Spec, place: map<Conn, Where>)

  ghost predicate SystemOk(s: System, x: Witness) {
    && Q.Invariant(s.queue, x.shape)
    && Refines(s.queue, x.shape, x.spec)
    && Replay(x.spec.log) == Some(x.spec.contents)
    && RotationOk(s.rest)
    && BatchesOk(s.rest)
    && OwnershipOk(x.spec, s.rest, x.place)
    && DeliveryOk(s.rest)
    && CountingOk(s.rest)
  }

  lemma OneReaderEach(a: Spec, r: Rest, place: map<Conn, Where>)
    requires OwnershipOk(a, r, place) && BatchesOk(r)
    ensures SingleReaders(r)
    ensures forall w :: 0 <= w < |r.workers| && r.workers[w].pc.Reading? ==> r.workers[w].pc.conn in r.accepted
  {
    forall v, w | 0 <= v < |r.workers| && 0 <= w < |r.workers|
      && r.workers[v].pc.Reading? && r.workers[w].pc.Reading? && r.workers[v].pc.conn == r.workers[w].pc.conn
      ensures v == w && r.workers[v].pc.conn in r.accepted
    {
      assert BatchOk(r.workers[v]) && BatchOk(r.workers[w]);
      RegisteredOnce(a, r, place, v, w, r.workers[v].pc.conn);
    }
  }

  lemma LinksOnlyGrow(r: Rest, l: Label)
    requires Step(r, l).Some? && r.accepted <= r.links.Keys
    ensures Step(r, l).value.accepted <= Step(r, l).value.links.Keys
  {
  }

  /** No connection goes back, and a registered one can only be closed. */
  ghost predicate PlacesAdvance(place: map<Conn, Where>, place': map<Conn, Where>) {
    forall c :: c in place ==>
      && c in place' && (place'[c] == place[c] || Stage(place'[c]) > Stage(place[c]))
      && (place[c].Registered? ==> place'[c] == place[c] || place'[c] == Ownership.Closed)
  }

  lemma PlacesDoAdvance(a: Spec, r: Rest, l: Label, a': Spec, r': Rest, place: map<Conn, Where>)
    requires OwnershipOk(a, r, place) && BatchesOk(r) && ServerStep(a, r, l, a', r')
    ensures PlacesAdvance(place, NextPlace(a, r, l, a', place))
  {
    forall c | c in place
      ensures var place' := NextPlace(a, r, l, a', place);
        && c in place' && (place'[c] == place[c] || Stage(place'[c]) > Stage(place[c]))
        && (place[c].Registered? ==> place'[c] == place[c] || place'[c] == Ownership.Closed)
    {
      NeverGoesBack(a, r, l, a', r', place, c);
    }
  }

  lemma ServerKeeps(x: Witness, r: Rest, l: Label, a': Spec, r': Rest)
    requires ServerStep(x.spec, r, l, a', r')
    requires RotationOk(r) && BatchesOk(r) && OwnershipOk(x.spec, r, x.place) && DeliveryOk(r) && CountingOk(r)
    ensures RotationOk(r') && BatchesOk(r') && CountingOk(r')
    ensures OwnershipOk(a', r', NextPlace(x.spec, r, l, a', x.place)) && DeliveryOk(r')
    ensures PlacesAdvance(x.place, NextPlace(x.spec, r, l, a', x.place))
  {
    PlacesDoAdvance(x.spec, r, l, a', r', x.place);
    CountingKept(x.spec, r, x.place, l);
    RotationKept(r, l);
    BatchesKept(r, l, r');
    OwnershipKept(x.spec, r, l, a', r', x.place);
    OneReaderEach(x.spec, r, x.place);
    OneReaderEach(a', r', NextPlace(x.spec, r, l, a', x.place));
    LinksOnlyGrow(r, l);
    DeliveryKept(r, l, r');
  }

  lemma SystemStepKeeps(s: System, l: Label, x: Witness) returns (x': Witness)
    requires SystemOk(s, x)
    ensures SystemStep(s, l) != Fault
    ensures SystemStep(s, l).Running? ==> SystemOk(SystemStep(s, l).system, x')
    ensures SystemStep(s, l).Running? ==> PlacesAdvance(x.place, x'.place)
  {
    x' := x;
    if l.Queue? {
      Q.NoFault(s.queue, x.shape, l.step);
      if SystemStep(s, l).Running? {
        var a' := SpecNext(s.queue, x.spec, l.step);
        StepRefines(s.queue, x.shape, x.spec, l.step);
        Q.StepKeepsInvariant(s.queue, x.shape, l.step);
        SpecKeepsHistory(x.spec, l.step, a'.value);
        ServerKeeps(x, s.rest, l, a'.value, SystemStep(s, l).system.rest);
        x' := Witness(Q.Reshape(s.queue, x.shape, l.step), a'.value, NextPlace(x.spec, s.rest, l, a'.value, x.place));
      }
    } else if SystemStep(s, l).Running? {
      ServerKeeps(x, s.rest, l, x.spec, SystemStep(s, l).system.rest);
      x' := x.(place := NextPlace(x.spec, s.rest, l, x.spec, x.place));
    }
  }

  lemma {:induction false} EveryRunOk(n: nat, hasClientFunc: bool, ls: seq<Label>) returns (x: Witness)
    requires n >= 1
    ensures SystemRun(n, hasClientFunc, ls) != Fault
    ensures SystemRun(n, hasClientFunc, ls).Running? ==> SystemOk(SystemRun(n, hasClientFunc, ls).system, x)
  {
    if ls == [] {
      x := Witness(Q.NO_NODES, SPEC_INITIAL, map[]);
      Q.InvariantInitially();
      RotationInitially(n, hasClientFunc);
      OwnershipInitially(n, hasClientFunc);
      DeliveryInitially(n, hasClientFunc);
      CountingInitially(n, hasClientFunc);
    } else {
      var k := |ls| - 1;
      x := EveryRunOk(n, hasClientFunc, ls[..k]);
      if SystemRun(n, hasClientFunc, ls[..k]).Running? {
        x := SystemStepKeeps(SystemRun(n, hasClientFunc, ls[..k]).system, ls[k], x);
      }
    }
  }

  /** SystemRun without the accidents of its definition: a state the system can get into. */
  ghost predicate Reachable(n: nat, hasClientFunc: bool, s: System) {
    exists ls :: SystemRun(n, hasClientFunc, ls) == Running(s)
  }

  /**
   The end-to-end guarantee. In every interleaving of the accept thread, the workers, the clients
   and every short write and short read, the messages handed to client_func for a connection are a
   prefix of the messages sent on it: in order, none twice, none mixed with another, none cut.
   */
  lemma DeliveredInOrder(n: nat, hasClientFunc: bool, s: System, c: Conn)
    requires n >= 1 && Reachable(n, hasClientFunc, s) && c in s.rest.links
    ensures s.rest.links[c].delivered <= s.rest.links[c].sent
  {
    var ls :| SystemRun(n, hasClientFunc, ls) == Running(s);
    var x := EveryRunOk(n, hasClientFunc, ls);
    DeliveredIsPrefix(s.rest.hasClientFunc, s.rest.links[c]);
  }

  /** No interleaving makes any thread touch a queue entry that is not allocated. */
  lemma MemorySafe(n: nat, hasClientFunc: bool, s: System, l: Label)
    requires n >= 1 && Reachable(n, hasClientFunc, s)
    ensures SystemStep(s, l) != Fault
  {
    var ls :| SystemRun(n, hasClientFunc, ls) == Running(s);
    var x := EveryRunOk(n, hasClientFunc, ls);
    x := SystemStepKeeps(s, l, x);
  }

  predicate RegisteredWith(s: System, w: WorkerId, c: Conn) {
    w < |s.rest.workers| && c in s.rest.workers[w].registered
  }

  /** Workers that have the same connection registered are the same worker. */
  lemma OneWorkerPerConnection(n: nat, hasClientFunc: bool, s: System, v: WorkerId, w: WorkerId, c: Conn)
    requires n >= 1 && Reachable(n, hasClientFunc, s)
    requires RegisteredWith(s, v, c) && RegisteredWith(s, w, c)
    ensures v == w && c !in s.rest.closed && c !in s.rest.dropped
  {
    var ls :| SystemRun(n, hasClientFunc, ls) == Running(s);
    var x := EveryRunOk(n, hasClientFunc, ls);
    RegisteredIsOpen(x.spec, s.rest, x.place, v, c);
    RegisteredIsOpen(x.spec, s.rest, x.place, w, c);
  }

  lemma StaysAStep(place: map<Conn, Where>, place': map<Conn, Where>, v: WorkerId, c: Conn)
    requires PlacesAdvance(place, place') && c in place && place[c] in {Registered(v), Ownership.Closed}
    ensures c in place' && place'[c] in {Registered(v), Ownership.Closed}
  {
  }

  /** The run ls, if it gets that far, is witnessed by x, and c is with worker v or closed. */
  ghost predicate StillWith(n: nat, hasClientFunc: bool, ls: seq<Label>, x: Witness, v: WorkerId, c: Conn) {
    var r := SystemRun(n, hasClientFunc, ls);
    r.Running? ==> SystemOk(r.system, x) && c in x.place && x.place[c] in {Registered(v), Ownership.Closed}
  }

  lemma StillWithNext(n: nat, hasClientFunc: bool, ls: seq<Label>, x: Witness, v: WorkerId, c: Conn) returns (x': Witness)
    requires ls != [] && StillWith(n, hasClientFunc, ls[..|ls| - 1], x, v, c)
    ensures StillWith(n, hasClientFunc, ls, x', v, c)
  {
    var k := |ls| - 1;
    x' := x;
    if SystemRun(n, hasClientFunc, ls[..k]).Running? {
      x' := SystemStepKeeps(SystemRun(n, hasClientFunc, ls[..k]).system, ls[k], x);
      if SystemRun(n, hasClientFunc, ls).Running? {
        StaysAStep(x.place, x'.place, v, c);
      }
    }
  }

  /** A connection registered with worker v after j steps of a run is still there at its end, or closed. */
  lemma {:induction false} StaysOrCloses(
    n: nat, hasClientFunc: bool, ls: seq<Label>, j: nat, v: WorkerId, c: Conn) returns (x: Witness)
    requires n >= 1 && j <= |ls| && SystemRun(n, hasClientFunc, ls[..j]).Running?
    requires RegisteredWith(SystemRun(n, hasClientFunc, ls[..j]).system, v, c)
    ensures StillWith(n, hasClientFunc, ls, x, v, c)
    decreases |ls|
  {
    if j == |ls| {
      assert ls[..j] == ls;
      x := EveryRunOk(n, hasClientFunc, ls);
      RegisteredIsOpen(x.spec, SystemRun(n, hasClientFunc, ls).system.rest, x.place, v, c);
    } else {
      assert ls[..|ls| - 1][..j] == ls[..j];
      x := StaysOrCloses(n, hasClientFunc, ls[..|ls| - 1], j, v, c);
      x := StillWithNext(n, hasClientFunc, ls, x, v, c);
    }
  }

  /** Over a whole run, no two workers ever register the same connection. */
  lemma RegisteredForGood(n: nat, hasClientFunc: bool, ls: seq<Label>, j: nat, v: WorkerId, w: WorkerId, c: Conn)
    requires n >= 1 && j <= |ls|
    requires SystemRun(n, hasClientFunc, ls[..j]).Running? && SystemRun(n, hasClientFunc, ls).Running?
    requires RegisteredWith(SystemRun(n, hasClientFunc, ls[..j]).system, v, c)
    requires RegisteredWith(SystemRun(n, hasClientFunc, ls).system, w, c)
    ensures v == w
  {
    var x := StaysOrCloses(n, hasClientFunc, ls, j, v, c);
    RegisteredIsOpen(x.spec, SystemRun(n, hasClientFunc, ls).system.rest, x.place, w, c);
  }

  /**
   Conservation: every accepted connection is in exactly one place: on its way into the queue, in
   it, carried by one worker, registered with one, closed, or dropped by a failed add.
   */
  lemma ConnectionsConserved(n: nat, hasClientFunc: bool, s: System, c: Conn) returns (x: Witness)
    requires n >= 1 && Reachable(n, hasClientFunc, s)
    ensures SystemOk(s, x)
    ensures c in s.rest.accepted ==> exists p :: At(x.spec, s.rest, c, p) && forall q :: At(x.spec, s.rest, c, q) ==> q == p
    ensures c !in s.rest.accepted ==> forall p :: !At(x.spec, s.rest, c, p)
  {
    var ls :| SystemRun(n, hasClientFunc, ls) == Running(s);
    x := EveryRunOk(n, hasClientFunc, ls);
    ExactlyOnePlace(x.spec, s.rest, x.place, c);
  }

  /** The workers' shares of the connections stay within two of each other. */
  lemma FairShares(n: nat, hasClientFunc: bool, s: System, v: WorkerId, w: WorkerId)
    requires n >= 1 && Reachable(n, hasClientFunc, s)
    requires v < |s.rest.workers| && w < |s.rest.workers|
    ensures Finished(s.rest.workers[v]) <= Finished(s.rest.workers[w]) + 2
  {
    var ls :| SystemRun(n, hasClientFunc, ls) == Running(s);
    var x := EveryRunOk(n, hasClientFunc, ls);
    AdoptionBalance(s.rest, v, w);
  }

  /** num_fds is the number of connections a worker ever registered, except between epoll_ctl and the counting. */
  lemma CountsAreExact(n: nat, hasClientFunc: bool, s: System, w: WorkerId)
    requires n >= 1 && Reachable(n, hasClientFunc, s)
    requires w < |s.rest.workers| && !s.rest.workers[w].pc.MayFree?
    ensures var x := s.rest.workers[w];
            && x.numFds == |x.adopted| && x.failedAdds == |x.refused|
            && x.registered <= x.adopted <= x.registered + s.rest.closed && x.refused <= s.rest.dropped
  {
    var ls :| SystemRun(n, hasClientFunc, ls) == Running(s);
    var x := EveryRunOk(n, hasClientFunc, ls);
    assert CountsOk(s.rest.workers[w], s.rest.closed, s.rest.dropped);
  }
}
