/** Fairness of the adoption of connections, over every run of the server. */
module Adoption {
  import opened Sequences
  import opened Rotation
  import opened Server
  import Q = QueueMachine

  /** A turn that was won and has not come to an end. */
  predicate InTurn(pc: WorkerPc) {
    pc.MayGet? || pc.InGet? || pc.MayAdd? || pc.MayFree?
  }

  function Finished(s: WorkerState): nat {
    s.numFds + s.emptyGets + s.failedAdds
  }

  /** Every turn a worker won ended in exactly one way, except possibly the one it is in. */
  predicate TurnsAddUp(s: WorkerState) {
    s.turns == Finished(s) + (if InTurn(s.pc) then 1 else 0)
  }

  predicate RotationOk(r: Rest) {
    && r.cur < |r.workers|
    && forall w :: 0 <= w < |r.workers| ==>
         r.workers[w].turns == r.rounds + (if w < r.cur then 1 else 0) && TurnsAddUp(r.workers[w])
  }

  lemma RotationInitially(n: nat, hasClientFunc: bool)
    requires n >= 1
    ensures RotationOk(Initially(n, hasClientFunc))
  {
  }

  lemma TurnKeepsRotation(r: Rest, w: WorkerId)
    requires RotationOk(r) && TurnStep(r, w).Some?
    ensures RotationOk(TurnStep(r, w).value)
  {
    var n := |r.workers|;
    if r.cur + 1 == n {
      WrapAround(0, n);
    } else {
      RemainderUnique(r.cur + 1, 0, r.cur + 1, n);
    }
  }

  /** Worker w has done something that leaves its number of turns and their balance as they were. */
  ghost predicate Balanced(r: Rest, w: WorkerId, r': Rest) {
    && r'.cur == r.cur && r'.rounds == r.rounds && |r'.workers| == |r.workers|
    && (forall v :: 0 <= v < |r.workers| && v != w ==> r'.workers[v] == r.workers[v])
    && (w < |r.workers| && TurnsAddUp(r.workers[w]) ==>
          r'.workers[w].turns == r.workers[w].turns && TurnsAddUp(r'.workers[w]))
  }

  lemma BalancedKeepsRotation(r: Rest, w: WorkerId, r': Rest)
    requires RotationOk(r) && Balanced(r, w, r')
    ensures RotationOk(r')
  {
    forall v | 0 <= v < |r'.workers|
      ensures r'.workers[v].turns == r'.rounds + (if v < r'.cur then 1 else 0) && TurnsAddUp(r'.workers[v])
    {
      if v != w {
        assert r'.workers[v] == r.workers[v];
      }
    }
  }

  lemma QueueBalanced(r: Rest, l: Q.Label)
    requires QueueStep(r, l).Some?
    ensures Balanced(r, l.tid, QueueStep(r, l).value)
  {
  }

  lemma EpollBalanced(r: Rest, l: Label)
    requires Step(r, l).Some? && OfEpoll(l)
    ensures Balanced(r, l.w, Step(r, l).value)
  {
  }

  lemma ReadBalanced(r: Rest, l: Label)
    requires Step(r, l).Some? && OfReading(l)
    ensures Balanced(r, l.w, Step(r, l).value)
  {
  }

  lemma ConnectionBalanced(r: Rest, l: Label)
    requires Step(r, l).Some? && OfClient(l)
    ensures Balanced(r, 0, Step(r, l).value)
  {
  }

  lemma RotationKept(r: Rest, l: Label)
    requires RotationOk(r) && Step(r, l).Some?
    ensures RotationOk(Step(r, l).value)
  {
    if l.Queue? {
      QueueBalanced(r, l.step);
      BalancedKeepsRotation(r, l.step.tid, QueueStep(r, l.step).value);
    } else if l.TakeTurn? {
      TurnKeepsRotation(r, l.w);
    } else if OfClient(l) {
      ConnectionBalanced(r, l);
      BalancedKeepsRotation(r, 0, Step(r, l).value);
    } else if OfReading(l) {
      ReadBalanced(r, l);
      BalancedKeepsRotation(r, l.w, Step(r, l).value);
    } else {
      EpollBalanced(r, l);
      BalancedKeepsRotation(r, l.w, Step(r, l).value);
    }
  }

  /**
   Adoption balance: registered descriptors plus empty gets plus failed adds differ by at most two
   between any two workers, because the turns they won differ by at most one.
   */
  lemma AdoptionBalance(r: Rest, v: WorkerId, w: WorkerId)
    requires RotationOk(r) && v < |r.workers| && w < |r.workers|
    ensures r.workers[v].turns <= r.workers[w].turns + 1
    ensures Finished(r.workers[v]) <= Finished(r.workers[w]) + 2
  {
    assert TurnsAddUp(r.workers[v]) && TurnsAddUp(r.workers[w]);
  }
}
