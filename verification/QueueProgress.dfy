/** How much work the concurrent queue can make its callers do. */
module QueueProgress {
  import opened Sequences
  import opened QueueMachine

  function Bit(b: bool): nat {
    if b then 1 else 0
  }

  /** Running from any state. */
  function Exec(s: State, ls: seq<Label>): Outcome
    decreases ls
  {
    if ls == [] then Ok(s) else
    match Step(s, ls[0])
    case Ok(s') => Exec(s', ls[1..])
    case Fault => Fault
    case Disabled => Disabled
  }

  /** In how many steps of the run from s the condition holds of the state and the step's label. */
  function Count(s: State, ls: seq<Label>, p: (State, Label) -> bool): nat
    decreases ls
  {
    if ls == [] || !Step(s, ls[0]).Ok? then 0
    else Bit(p(s, ls[0])) + Count(Step(s, ls[0]).state, ls[1..], p)
  }

  predicate InsertSwapFails(s: State, l: Label) {
    l.Tau? && Pc(s, l.tid).InsCas? && Pc(s, l.tid).inQueue != s.queueIn
  }

  predicate GetSwapFails(s: State, l: Label) {
    l.Tau? && Pc(s, l.tid).GetCas? && Pc(s, l.tid).head != s.queueIn
  }

  predicate Pushes(s: State, l: Label) {
    l.Tau? && Pc(s, l.tid).InsCas? && Pc(s, l.tid).inQueue == s.queueIn
  }

  predicate Relinks(s: State, l: Label) {
    l.Tau? && Pc(s, l.tid).DrainLink?
  }

  /** A swap by another thread that changes the value of queue_in. */
  predicate ChangesQueueIn(s: State, l: Label) {
    Step(s, l).Ok? && Step(s, l).state.queueIn != s.queueIn
  }

  /** Thread t has read queue_in for its insert, and the value has changed since. */
  predicate StaleInsert(s: State, t: Tid) {
    match Pc(s, t)
    case InsLink(_, inQueue) => inQueue != s.queueIn
    case InsCas(_, inQueue) => inQueue != s.queueIn
    case _ => false
  }

  predicate StaleGet(s: State, t: Tid) {
    Pc(s, t).GetCas? && Pc(s, t).head != s.queueIn
  }

  predicate NoCallBy(ls: seq<Label>, t: Tid) {
    forall i :: 0 <= i < |ls| ==> ls[i].tid == t ==> !ls[i].InsCall? && !ls[i].GetCall?
  }

  /** One step: a failed swap of t uses up the staleness, and only others make its copy stale. */
  lemma InsertStep(s: State, l: Label, t: Tid)
    requires Step(s, l).Ok? && (l.tid == t ==> !l.InsCall? && !l.GetCall?)
    ensures Bit(l.tid == t && InsertSwapFails(s, l)) + Bit(StaleInsert(Step(s, l).state, t))
            <= Bit(l.tid != t && ChangesQueueIn(s, l)) + Bit(StaleInsert(s, t))
  {
  }

  /**
   Lock-freedom of insert: as long as t starts no other operation, its failed swaps number at most
   the changes other threads make to queue_in, plus one if its copy is stale to begin with. A
   change that puts the old value back, as reuse of an address can, does not make the swap fail.
   */
  lemma {:induction false} InsertRetries(s: State, ls: seq<Label>, t: Tid)
    requires NoCallBy(ls, t)
    ensures Count(s, ls, (x: State, l: Label) => l.tid == t && InsertSwapFails(x, l))
            <= Count(s, ls, (x: State, l: Label) => l.tid != t && ChangesQueueIn(x, l)) + Bit(StaleInsert(s, t))
    decreases ls
  {
    if ls != [] && Step(s, ls[0]).Ok? {
      assert NoCallBy(ls[1..], t);
      InsertRetries(Step(s, ls[0]).state, ls[1..], t);
      InsertStep(s, ls[0], t);
    }
  }

  /** From the call of an insert on, nothing is stale. */
  lemma InsertRetriesFromCall(s: State, ls: seq<Label>, t: Tid)
    requires Pc(s, t).InsRead? && NoCallBy(ls, t)
    ensures Count(s, ls, (x: State, l: Label) => l.tid == t && InsertSwapFails(x, l))
            <= Count(s, ls, (x: State, l: Label) => l.tid != t && ChangesQueueIn(x, l))
  {
    InsertRetries(s, ls, t);
  }

  /** While t waits to steal, only inserts change queue_in: nobody else can hold the lock. */
  lemma OnlyPushesMeanwhile(s: State, g: Shape, l: Label, t: Tid)
    requires Invariant(s, g) && Pc(s, t).GetCas? && l.tid != t && ChangesQueueIn(s, l)
    ensures s.owner == Some(t) && Pushes(s, l)
  {
    assert ThreadOk(s, g, t) && ThreadOk(s, g, l.tid);
  }

  /**
   The failed swaps of a caller's gets number at most the inserts that succeed while it holds the
   lock, plus one if its copy is stale to begin with.
   */
  lemma {:induction false} GetRetries(s: State, g: Shape, ls: seq<Label>, t: Tid)
    requires Invariant(s, g)
    ensures Count(s, ls, (x: State, l: Label) => l.tid == t && GetSwapFails(x, l))
            <= Count(s, ls, (x: State, l: Label) => x.owner == Some(t) && Pushes(x, l)) + Bit(StaleGet(s, t))
    decreases ls
  {
    if ls != [] && Step(s, ls[0]).Ok? {
      var s' := Step(s, ls[0]).state;
      StepKeepsInvariant(s, g, ls[0]);
      GetRetries(s', Reshape(s, g, ls[0]), ls[1..], t);
      GetRetriesStep(s, g, ls[0], t);
    }
  }

  /** From the call of a get on, there is no stale copy to begin with. */
  lemma GetRetriesFromCall(s: State, g: Shape, ls: seq<Label>, t: Tid)
    requires Invariant(s, g) && Pc(s, t).GetLock?
    ensures Count(s, ls, (x: State, l: Label) => l.tid == t && GetSwapFails(x, l))
            <= Count(s, ls, (x: State, l: Label) => x.owner == Some(t) && Pushes(x, l))
  {
    GetRetries(s, g, ls, t);
  }

  lemma OwnGetStep(s: State, l: Label)
    requires Step(s, l).Ok?
    ensures !StaleGet(Step(s, l).state, l.tid) && (GetSwapFails(s, l) ==> StaleGet(s, l.tid))
  {
  }

  lemma OtherGetStep(s: State, l: Label, t: Tid)
    requires Step(s, l).Ok? && l.tid != t
    ensures Pc(s, t).GetCas? && !ChangesQueueIn(s, l) ==> StaleGet(Step(s, l).state, t) == StaleGet(s, t)
    ensures !Pc(s, t).GetCas? ==> !StaleGet(Step(s, l).state, t)
  {
  }

  lemma GetRetriesStep(s: State, g: Shape, l: Label, t: Tid)
    requires Invariant(s, g) && Step(s, l).Ok?
    ensures Bit(l.tid == t && GetSwapFails(s, l)) + Bit(StaleGet(Step(s, l).state, t))
            <= Bit(s.owner == Some(t) && Pushes(s, l)) + Bit(StaleGet(s, t))
  {
    if l.tid == t {
      OwnGetStep(s, l);
    } else {
      OtherGetStep(s, l, t);
      if Pc(s, t).GetCas? && ChangesQueueIn(s, l) {
        OnlyPushesMeanwhile(s, g, l, t);
      }
    }
  }

  // ---------------------------------------------------------------- amortized cost of the drain

  /** Nodes that have been inserted and are still to be relinked. */
  function ToRelink(s: State, g: Shape): int {
    |g.intake| + |g.draining| - Bit(s.owner.Some? && Pc(s, s.owner.value).DrainOut?)
  }

  lemma RelinkStep(s: State, g: Shape, l: Label)
    requires Invariant(s, g) && Step(s, l).Ok?
    ensures ToRelink(Step(s, l).state, Reshape(s, g, l)) ==
            ToRelink(s, g) + Bit(Pushes(s, l)) - Bit(Relinks(s, l))
  {
    assert ThreadOk(s, g, l.tid);
    if s.owner.Some? {
      assert ThreadOk(s, g, s.owner.value);
    }
  }

  /** Every push is paid for by at most one relink, in every interleaving. */
  lemma {:induction false} RelinkBalance(s: State, g: Shape, ls: seq<Label>) returns (s': State, g': Shape)
    requires Invariant(s, g) && Exec(s, ls).Ok?
    ensures Exec(s, ls) == Ok(s') && Invariant(s', g')
    ensures Count(s, ls, Relinks) + ToRelink(s', g') == Count(s, ls, Pushes) + ToRelink(s, g)
    decreases ls
  {
    s', g' := s, g;
    if ls != [] {
      StepKeepsInvariant(s, g, ls[0]);
      RelinkStep(s, g, ls[0]);
      s', g' := RelinkBalance(Step(s, ls[0]).state, Reshape(s, g, ls[0]), ls[1..]);
    }
  }

  /** Over any run the relink steps never exceed the inserts. */
  lemma RelinksAtMostPushes(ls: seq<Label>)
    requires Exec(INITIAL, ls).Ok?
    ensures Count(INITIAL, ls, Relinks) <= Count(INITIAL, ls, Pushes)
  {
    InvariantInitially();
    var s, g := RelinkBalance(INITIAL, NO_NODES, ls);
    if s.owner.Some? {
      assert ThreadOk(s, g, s.owner.value);
    }
  }
}
