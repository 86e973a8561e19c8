/**
 The queue as its callers may think of it: a first-in first-out sequence on which every operation
 takes effect in one instant between its call and its return.
 */
module QueueSpec {
  import opened Sequences
  import opened QueueMachine

  datatype SpecPc =
    | SIdle
    | SInserting(conn: Conn)
    | SInserted
    | SGetting
    | SGot(result: Option<Conn>)
    | SHolding(conn: Conn)

  /** What took effect, in which order. */
  datatype Event = Inserted(tid: Tid, conn: Conn) | Removed(tid: Tid, conn: Conn) | FoundEmpty(tid: Tid)

  datatype Spec = Spec(contents: seq<Conn>, pcs: map<Tid, SpecPc>, log: seq<Event>)

  const SPEC_INITIAL := Spec([], map[], [])

  function SpecPcOf(a: Spec, t: Tid): SpecPc {
    if t in a.pcs then a.pcs[t] else SIdle
  }

  function SpecGoto(a: Spec, t: Tid, pc: SpecPc): Spec {
    a.(pcs := a.pcs[t := pc])
  }

  /** Calls, returns and frees. */
  function SpecCall(a: Spec, l: Label): Option<Spec> {
    match l
    case InsCall(t, conn, _, _) => if SpecPcOf(a, t).SIdle? then Some(SpecGoto(a, t, SInserting(conn))) else None
    case InsRet(t) => if SpecPcOf(a, t).SInserted? then Some(SpecGoto(a, t, SIdle)) else None
    case GetCall(t) => if SpecPcOf(a, t).SIdle? then Some(SpecGoto(a, t, SGetting)) else None
    case GetRet(t, result) =>
      if SpecPcOf(a, t) == SGot(result)
      then Some(SpecGoto(a, t, if result.Some? then SHolding(result.value) else SIdle))
      else None
    case Free(t) => if SpecPcOf(a, t).SHolding? then Some(SpecGoto(a, t, SIdle)) else None
    case Tau(_) => None
  }

  /** The instant at which the pending operation of t takes effect. */
  function TakeEffect(a: Spec, t: Tid): Option<Spec> {
    match SpecPcOf(a, t)
    case SInserting(c) =>
      Some(SpecGoto(a.(contents := a.contents + [c], log := a.log + [Inserted(t, c)]), t, SInserted))
    case SGetting =>
      if a.contents == [] then Some(SpecGoto(a.(log := a.log + [FoundEmpty(t)]), t, SGot(None)))
      else
        var c := a.contents[0];
        Some(SpecGoto(a.(contents := a.contents[1..], log := a.log + [Removed(t, c)]), t, SGot(Some(c))))
    case _ => None
  }

  predicate SpecAllows(a: Spec, l: Label, a': Spec) {
    if l.Tau? then a' == a || TakeEffect(a, l.tid) == Some(a') else SpecCall(a, l) == Some(a')
  }

  // ---------------------------------------------------------------- sequential histories

  /** The log read as the history of a sequential queue: the queue it leaves, None if it is not one. */
  function Replay(log: seq<Event>): Option<seq<Conn>> {
    if log == [] then Some([]) else
    var k := |log| - 1;
    match Replay(log[..k])
    case None => None
    case Some(q) =>
      match log[k]
      case Inserted(_, c) => Some(q + [c])
      case Removed(_, c) => if q != [] && q[0] == c then Some(q[1..]) else None
      case FoundEmpty(_) => if q == [] then Some([]) else None
  }

  function InsertedConns(log: seq<Event>): seq<Conn> {
    if log == [] then [] else
    var k := |log| - 1;
    InsertedConns(log[..k]) + if log[k].Inserted? then [log[k].conn] else []
  }

  function RemovedConns(log: seq<Event>): seq<Conn> {
    if log == [] then [] else
    var k := |log| - 1;
    RemovedConns(log[..k]) + if log[k].Removed? then [log[k].conn] else []
  }

  /** First in, first out, nothing lost and nothing invented. */
  lemma {:induction false} RemovedThenContents(log: seq<Event>)
    requires Replay(log).Some?
    ensures InsertedConns(log) == RemovedConns(log) + Replay(log).value
  {
    if log != [] {
      RemovedThenContents(log[..|log| - 1]);
    }
  }

  lemma {:induction false} InsertedOnlyGrows(log: seq<Event>, k: nat)
    requires k <= |log|
    ensures InsertedConns(log[..k]) <= InsertedConns(log)
    decreases |log|
  {
    if k < |log| {
      InsertedOnlyGrows(log[..|log| - 1], k);
      assert log[..|log| - 1][..k] == log[..k];
    } else {
      assert log[..k] == log;
    }
  }

  /**
   Bounded wait: if an entry was inserted behind exactly p others that were still in the queue,
   then the (p+1)-th removal after that returns it, however much is inserted meanwhile.
   */
  lemma EntryLeavesAfterThoseAhead(log: seq<Event>, k: nat, p: nat)
    requires k <= |log| && Replay(log[..k]).Some? && Replay(log).Some?
    requires p < |Replay(log[..k]).value|
    requires |RemovedConns(log)| > |RemovedConns(log[..k])| + p
    ensures RemovedConns(log)[|RemovedConns(log[..k])| + p] == Replay(log[..k]).value[p]
  {
    RemovedThenContents(log[..k]);
    RemovedThenContents(log);
    InsertedOnlyGrows(log, k);
    var i := |RemovedConns(log[..k])| + p;
    assert InsertedConns(log)[i] == InsertedConns(log[..k])[i];
  }

  /** Every step of the specification keeps the log a legal history that leads to the contents. */
  lemma SpecKeepsHistory(a: Spec, l: Label, a': Spec)
    requires Replay(a.log) == Some(a.contents) && SpecAllows(a, l, a')
    ensures Replay(a'.log) == Some(a'.contents)
  {
    if a'.log != a.log {
      assert a'.log[..|a'.log| - 1] == a.log;
    }
  }
}
