/** The counters of a worker say what they are called, over every run of the server. */
module Counting {
  import opened Sequences
  import opened QueueSpec
  import opened Epoll
  import opened Server
  import opened Ownership
  import Q = QueueMachine

  function OneIf(b: bool): nat {
    if b then 1 else 0
  }

  /**
   num_fds is the number of connections the worker ever registered, each of which it still has or
   closed, and failedAdds the number it dropped; between epoll_ctl and the counting one is missing.
   */
  predicate CountsOk(s: WorkerState, closed: set<Conn>, dropped: set<Conn>) {
    && s.registered <= s.adopted && s.adopted <= s.registered + closed && s.refused <= dropped
    && |s.adopted| == s.numFds + OneIf(s.pc.MayFree? && s.pc.added)
    && |s.refused| == s.failedAdds + OneIf(s.pc.MayFree? && !s.pc.added)
  }

  ghost predicate CountingOk(r: Rest) {
    forall w :: 0 <= w < |r.workers| ==> CountsOk(r.workers[w], r.closed, r.dropped)
  }

  lemma CountingInitially(n: nat, hasClientFunc: bool)
    ensures CountingOk(Initially(n, hasClientFunc))
  {
  }

  /** Worker w alone changed, and so that its counts still are right; nothing closed or dropped came back. */
  ghost predicate Recounted(r: Rest, w: WorkerId, r': Rest) {
    && |r'.workers| == |r.workers| && r.closed <= r'.closed && r.dropped <= r'.dropped
    && (forall v :: 0 <= v < |r.workers| && v != w ==> r'.workers[v] == r.workers[v])
    && (w < |r.workers| && CountsOk(r.workers[w], r.closed, r.dropped) ==> CountsOk(r'.workers[w], r'.closed, r'.dropped))
  }

  lemma RecountedKeeps(r: Rest, w: WorkerId, r': Rest)
    requires CountingOk(r) && Recounted(r, w, r')
    ensures CountingOk(r')
  {
    forall v | 0 <= v < |r'.workers| ensures CountsOk(r'.workers[v], r'.closed, r'.dropped) {
      assert CountsOk(r.workers[v], r.closed, r.dropped);
    }
  }

  lemma QueueRecounted(r: Rest, l: Q.Label)
    requires QueueStep(r, l).Some?
    ensures Recounted(r, l.tid, QueueStep(r, l).value)
  {
  }

  lemma AddRecounted(a: Spec, r: Rest, place: map<Conn, Where>, w: WorkerId, ok: bool)
    requires OwnershipOk(a, r, place) && AddStep(r, w, ok).Some?
    requires CountsOk(r.workers[w], r.closed, r.dropped)
    ensures Recounted(r, w, AddStep(r, w, ok).value)
  {
    var c := r.workers[w].pc.conn;
    assert At(a, r, c, Carried(w));
    assert !At(a, r, c, Registered(w)) && !At(a, r, c, Ownership.Closed) && !At(a, r, c, Dropped);
  }

  lemma NextEventRecounted(r: Rest, w: WorkerId)
    requires NextEventStep(r, w).Some?
    ensures Recounted(r, w, NextEventStep(r, w).value)
  {
  }

  lemma OtherRecounted(r: Rest, l: Label)
    requires Step(r, l).Some? && (l.TakeTurn? || l.EpollWait? || l.EpollWaitFails? || OfReading(l))
    ensures Recounted(r, l.w, Step(r, l).value)
  {
  }

  lemma ClientRecounted(r: Rest, l: Label)
    requires Step(r, l).Some? && OfClient(l)
    ensures Recounted(r, 0, Step(r, l).value)
  {
  }

  lemma CountingKept(a: Spec, r: Rest, place: map<Conn, Where>, l: Label)
    requires OwnershipOk(a, r, place) && CountingOk(r) && Step(r, l).Some?
    ensures CountingOk(Step(r, l).value)
  {
    if l.Queue? {
      QueueRecounted(r, l.step);
      RecountedKeeps(r, l.step.tid, Step(r, l).value);
    } else if l.EpollAdd? {
      AddRecounted(a, r, place, l.w, l.ok);
      RecountedKeeps(r, l.w, Step(r, l).value);
    } else if l.NextEvent? {
      NextEventRecounted(r, l.w);
      RecountedKeeps(r, l.w, Step(r, l).value);
    } else if OfClient(l) {
      ClientRecounted(r, l);
      RecountedKeeps(r, 0, Step(r, l).value);
    } else {
      OtherRecounted(r, l);
      RecountedKeeps(r, l.w, Step(r, l).value);
    }
  }
}
