/**
 Operations of the concurrent queue come to an end: no thread inside one is ever refused a step,
 except while another holds the lock, and a thread that is left alone completes the operation it is
 in, wherever it stands and whatever swap it has just lost.
 */
module QueueCompletion {
  import opened Sequences
  import opened QueueMachine
  import opened QueueSpec
  import opened QueueRefinement

  /** In the middle of comm_queue_insert or comm_queue_get. */
  predicate Inside(pc: PC) {
    !pc.Idle? && !pc.InsDone? && !pc.GetDone? && !pc.Holding?
  }

  /** A thread inside an operation can go on, unless it waits for a lock that is taken. */
  lemma NeverRefused(s: State, g: Shape, t: Tid)
    requires Invariant(s, g)
    ensures Step(s, Tau(t)).Ok? <==> Inside(Pc(s, t)) && (Pc(s, t).GetLock? ==> s.owner == None)
  {
    assert ThreadOk(s, g, t);
  }

  /** Calls, returns and frees happen whenever their caller is ready for them. */
  lemma CallersAreNeverRefused(s: State, g: Shape, t: Tid, conn: Conn, addr: Addr, junk: Addr, result: Option<Conn>)
    requires Invariant(s, g)
    ensures Step(s, InsCall(t, conn, addr, junk)).Ok? <==> Pc(s, t).Idle? && addr != NULL && addr !in s.heap
    ensures Step(s, InsRet(t)).Ok? <==> Pc(s, t).InsDone?
    ensures Step(s, GetCall(t)).Ok? <==> Pc(s, t).Idle?
    ensures Step(s, GetRet(t, result)).Ok? <==> Pc(s, t).GetDone? && CallerView(s, t) == SGot(result)
    ensures Step(s, Free(t)).Ok? <==> Pc(s, t).Holding?
  {
    assert ThreadOk(s, g, t);
    if Pc(s, t).GetDone? && Pc(s, t).head != NULL {
      assert Pc(s, t).head in g.place.Keys;
    }
    if Pc(s, t).Holding? {
      assert Pc(s, t).entry in g.place.Keys;
    }
  }

  // ---------------------------------------------------------------- alone

  /** Thread t makes n steps and nobody else makes any. */
  function Alone(s: State, t: Tid, n: nat): Outcome
    decreases n
  {
    if n == 0 then Ok(s) else
    match Step(s, Tau(t))
    case Ok(s') => Alone(s', t, n - 1)
    case Fault => Fault
    case Disabled => Disabled
  }

  /** At most so many steps are left for a thread that runs alone: four for every node of a drain. */
  function Left(s: State, g: Shape, t: Tid): nat {
    var i, d := 4 * |g.intake|, 4 * |g.draining|;
    match Pc(s, t)
    case InsRead(_) => 3
    case InsLink(_, inQueue) => if inQueue == s.queueIn then 2 else 5
    case InsCas(_, inQueue) => if inQueue == s.queueIn then 1 else 4
    case GetLock => i + 10
    case GetTest => i + 9
    case GetRead => i + 8
    case GetCas(head) => if head == s.queueIn then i + 7 else i + 9
    case Drain(_) => d + 6
    case DrainRead(_, _) => d + 5
    case DrainLink(_, _, _) => d + 4
    case DrainOut(_, _) => d + 3
    case PopTest => 5
    case PopTake => 4
    case PopRead(_) => 3
    case PopAdvance(_, _) => 2
    case GetUnlock(_) => 1
    case _ => 0
  }

  lemma LeftIsBounded(s: State, g: Shape, t: Tid)
    ensures Left(s, g, t) <= 4 * (|g.intake| + |g.draining|) + 10
    ensures Pc(s, t).InsRead? || Pc(s, t).InsLink? || Pc(s, t).InsCas? ==> Left(s, g, t) <= 5
  {
  }

  lemma LeftDecreasesInDrain(s: State, g: Shape, t: Tid)
    requires Invariant(s, g) && Pc(s, t).DrainOut? && Step(s, Tau(t)).Ok?
    ensures Left(Step(s, Tau(t)).state, Reshape(s, g, Tau(t)), t) < Left(s, g, t)
  {
    assert ThreadOk(s, g, t);
  }

  predicate Stealing(pc: PC) {
    pc.GetLock? || pc.GetTest? || pc.GetRead? || pc.GetCas?
  }

  lemma LeftDecreasesInSteal(s: State, g: Shape, t: Tid)
    requires Invariant(s, g) && Stealing(Pc(s, t)) && Step(s, Tau(t)).Ok?
    ensures Left(Step(s, Tau(t)).state, Reshape(s, g, Tau(t)), t) < Left(s, g, t)
  {
    assert ThreadOk(s, g, t);
  }

  lemma LeftDecreasesElsewhere(s: State, g: Shape, t: Tid)
    requires Inside(Pc(s, t)) && !Pc(s, t).DrainOut? && !Stealing(Pc(s, t)) && Step(s, Tau(t)).Ok?
    ensures Left(Step(s, Tau(t)).state, Reshape(s, g, Tau(t)), t) < Left(s, g, t)
  {
  }

  lemma LeftDecreases(s: State, g: Shape, t: Tid)
    requires Invariant(s, g) && Inside(Pc(s, t)) && Step(s, Tau(t)).Ok?
    ensures Left(Step(s, Tau(t)).state, Reshape(s, g, Tau(t)), t) < Left(s, g, t)
  {
    if Pc(s, t).DrainOut? {
      LeftDecreasesInDrain(s, g, t);
    } else if Stealing(Pc(s, t)) {
      LeftDecreasesInSteal(s, g, t);
    } else {
      LeftDecreasesElsewhere(s, g, t);
    }
  }

  lemma StaysInside(s: State, t: Tid)
    requires Inside(Pc(s, t)) && Step(s, Tau(t)).Ok?
    ensures var s' := Step(s, Tau(t)).state;
            && (Inside(Pc(s', t)) || Pc(s', t).InsDone? || Pc(s', t).GetDone?)
            && !Pc(s', t).GetLock?
  {
  }

  /** What an operation that had come to before must have done when it has come to after. */
  predicate Completed(before: SpecPc, contents: seq<Conn>, after: SpecPc, contents': seq<Conn>) {
    match before
    case SInserting(c) => after == SInserted && contents' == contents + [c]
    case SGetting =>
      if contents == [] then after == SGot(None) && contents' == []
      else after == SGot(Some(contents[0])) && contents' == contents[1..]
    case _ => after == before && contents' == contents
  }

  lemma SpecStepCompletes(a: Spec, t: Tid, b: Spec, after: SpecPc, contents: seq<Conn>)
    requires b == a || TakeEffect(a, t) == Some(b)
    requires Completed(SpecPcOf(b, t), b.contents, after, contents)
    ensures Completed(SpecPcOf(a, t), a.contents, after, contents)
  {
  }

  /** One step of a thread that runs alone. */
  lemma AloneStep(s: State, g: Shape, a: Spec, t: Tid) returns (s1: State, g1: Shape, b: Spec)
    requires Invariant(s, g) && Refines(s, g, a) && Inside(Pc(s, t)) && (Pc(s, t).GetLock? ==> s.owner == None)
    ensures Step(s, Tau(t)) == Ok(s1) && Invariant(s1, g1) && Refines(s1, g1, b)
    ensures Left(s1, g1, t) < Left(s, g, t)
    ensures !Pc(s1, t).Idle? && !Pc(s1, t).Holding? && !Pc(s1, t).GetLock?
    ensures b == a || TakeEffect(a, t) == Some(b)
  {
    NeverRefused(s, g, t);
    s1, g1, b := Step(s, Tau(t)).state, Reshape(s, g, Tau(t)), SpecNext(s, a, Tau(t)).value;
    StepKeepsInvariant(s, g, Tau(t));
    StepRefines(s, g, a, Tau(t));
    LeftDecreases(s, g, t);
    StaysInside(s, t);
  }

  /** With the queue as its callers think of it at hand: the operation completes and does what it should. */
  lemma {:induction false} CompletesWith(s: State, g: Shape, a: Spec, t: Tid)
    returns (n: nat, s': State, g': Shape, a': Spec)
    requires Invariant(s, g) && Refines(s, g, a)
    requires !Pc(s, t).Idle? && !Pc(s, t).Holding? && (Pc(s, t).GetLock? ==> s.owner == None)
    ensures n <= Left(s, g, t) && Alone(s, t, n) == Ok(s')
    ensures Invariant(s', g') && Refines(s', g', a')
    ensures Pc(s', t).InsDone? || Pc(s', t).GetDone?
    ensures Completed(SpecPcOf(a, t), a.contents, SpecPcOf(a', t), a'.contents)
    decreases Left(s, g, t)
  {
    if !Inside(Pc(s, t)) {
      n, s', g', a' := 0, s, g, a;
      assert SpecPcOf(a, t) == CallerView(s, t);
    } else {
      var s1, g1, b := AloneStep(s, g, a, t);
      n, s', g', a' := CompletesWith(s1, g1, b, t);
      SpecStepCompletes(a, t, b, SpecPcOf(a', t), a'.contents);
      n := n + 1;
    }
  }

  /** The queue a state stands for. */
  function SpecOf(s: State, g: Shape): Spec {
    Spec(Contents(s, g), map t | t in s.pcs :: CallerView(s, t), [])
  }

  /**
   A thread inside an insert or a get, having lost a swap or not, that is left alone completes it in
   at most four steps for every node in the intake and private lists and ten more: the insert in
   at most five. The insert puts its connection at the end; the get returns the first connection,
   or nothing if there is none; an operation that had taken effect before changes nothing more.
   */
  lemma CompletesAlone(s: State, g: Shape, t: Tid) returns (n: nat, s': State, g': Shape)
    requires Invariant(s, g) && Inside(Pc(s, t)) && (Pc(s, t).GetLock? ==> s.owner == None)
    ensures Alone(s, t, n) == Ok(s') && Invariant(s', g')
    ensures n <= 4 * (|g.intake| + |g.draining|) + 10
    ensures Pc(s, t).InsRead? || Pc(s, t).InsLink? || Pc(s, t).InsCas? ==> n <= 5
    ensures Pc(s', t).InsDone? || Pc(s', t).GetDone?
    ensures Completed(CallerView(s, t), Contents(s, g), CallerView(s', t), Contents(s', g'))
  {
    var a := SpecOf(s, g);
    assert Refines(s, g, a);
    LeftIsBounded(s, g, t);
    var a';
    n, s', g', a' := CompletesWith(s, g, a, t);
    assert SpecPcOf(a, t) == CallerView(s, t) && SpecPcOf(a', t) == CallerView(s', t);
  }
}
