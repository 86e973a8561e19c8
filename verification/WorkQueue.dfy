/**
 The connection queue on the real heap: an intake stack, an outgoing list, and a drain that turns
 the one into the other by relinking its nodes in place. Here one caller at a time runs; the module
 QueueMachine interleaves callers step by step.
 */
module WorkQueue {
  import opened Sequences

  class Entry {
    var socketFd: int
    var next: Entry?

    constructor (fd: int)
      ensures socketFd == fd
    {
      socketFd := fd;
      next := null;
    }
  }

  /** The nodes reached from p by next pointers are exactly s, in this order, ending in null. */
  ghost predicate IsList(p: Entry?, s: seq<Entry>)
    reads s
  {
    if s == [] then p == null else p == s[0] && IsList(s[0].next, s[1..])
  }

  lemma PushFront(p: Entry?, s: seq<Entry>, e: Entry)
    requires IsList(p, s) && e.next == p
    ensures IsList(e, [e] + s)
  {
    assert ([e] + s)[1..] == s;
  }

  lemma NotBefore<T>(s: seq<T>, before: seq<T>, x: T, after: seq<T>)
    requires NoDuplicates(s) && s == before + [x] + after
    ensures x !in before && x !in after
  {
    var k := |before|;
    assert s[k] == x;
    assert forall i :: 0 <= i < k ==> before[i] == s[i];
    assert forall i :: 0 <= i < |after| ==> after[i] == s[k + 1 + i];
  }

  lemma NoDuplicatesTail<T>(a: seq<T>, b: seq<T>)
    requires NoDuplicates(a + b) && b != []
    ensures NoDuplicates(a + b[1..])
  {
    var ab, abt := a + b, a + b[1..];
    forall i, j | 0 <= i < j < |abt| ensures abt[i] != abt[j] {
      var i', j' := if i < |a| then i else i + 1, if j < |a| then j else j + 1;
      assert abt[i] == ab[i'] && abt[j] == ab[j'];
    }
  }

  class Queue {
    var queueIn: Entry?
    var queueOut: Entry?
    ghost var intake: seq<Entry>
    ghost var outgoing: seq<Entry>

    ghost predicate Valid()
      reads this, intake, outgoing
    {
      && IsList(queueIn, intake)
      && IsList(queueOut, outgoing)
      && NoDuplicates(intake + outgoing)
    }

    /** The entries in the order in which they are going to be handed out. */
    ghost function Contents(): seq<Entry>
      reads this
    {
      outgoing + Reverse(intake)
    }

    /** comm_init_queueroot */
    constructor ()
      ensures Valid() && Contents() == []
    {
      queueIn, queueOut := null, null;
      intake, outgoing := [], [];
    }

    method CompareAndSwapIn(expected: Entry?, desired: Entry?) returns (ok: bool)
      modifies this`queueIn
      ensures ok <==> old(queueIn) == expected
      ensures queueIn == if ok then desired else old(queueIn)
    {
      ok := queueIn == expected;
      if ok {
        queueIn := desired;
      }
    }

    /** comm_queue_insert; the entry belongs to the caller and is not in the queue. */
    method Insert(entry: Entry)
      requires Valid() && entry !in intake && entry !in outgoing
      modifies this, entry`next
      ensures Valid()
      ensures Contents() == old(Contents()) + [entry]
      ensures intake == [entry] + old(intake) && outgoing == old(outgoing)
    {
      var done := false;
      while !done
        invariant intake == old(intake) && outgoing == old(outgoing) && queueOut == old(queueOut)
        invariant if done then queueIn == entry && entry.next == old(queueIn) else queueIn == old(queueIn)
        decreases !done
      {
        var inQueue := queueIn;
        entry.next := inQueue;
        done := CompareAndSwapIn(inQueue, entry);
      }
      assert forall e :: e in intake || e in outgoing ==> e.next == old(e.next);
      assert IsList(old(queueIn), intake) && IsList(queueOut, outgoing);
      PushFront(old(queueIn), intake, entry);
      ghost var others := intake + outgoing;
      intake := [entry] + intake;
      assert intake + outgoing == [entry] + others;
      assert intake[1..] == old(intake);
    }

    /**
     The loop of comm_queue_get over the stolen stack: every node is relinked once, in place, onto
     the front of queue_out. The stack comes out exactly reversed, on its own nodes.
     */
    method Drain(stolen: Entry?, ghost stack: seq<Entry>)
      requires IsList(stolen, stack) && NoDuplicates(stack)
      requires queueOut == null
      modifies this`queueOut, stack`next
      ensures IsList(queueOut, Reverse(stack))
    {
      var head := stolen;
      ghost var rest: seq<Entry>, done: seq<Entry> := stack, [];
      while head != null
        invariant stack == done + rest
        invariant IsList(head, rest)
        invariant IsList(queueOut, Reverse(done))
        decreases |rest|
      {
        ghost var out := Reverse(done);
        ghost var node: Entry := head;
        assert node == rest[0] == stack[|done|];
        NotBefore(stack, done, node, rest[1..]);
        ReverseMembers(done, node);
        var next := head.next;
        head.next := queueOut;
        assert IsList(queueOut, out) && IsList(next, rest[1..]);
        PushFront(queueOut, out, head);
        queueOut := head;
        ReverseAppend(done, [node]);
        assert Reverse([node]) == [node];
        done, rest := done + [node], rest[1..];
        head := next;
      }
      assert done == stack;
    }

    /** The refill branch of comm_queue_get: steal the whole intake stack with one swap, then drain it. */
    method Refill()
      requires Valid() && queueOut == null
      modifies this, intake`next
      ensures Valid() && Contents() == old(Contents())
      ensures intake == [] && outgoing == Reverse(old(intake))
    {
      assert intake + outgoing == intake;
      var head: Entry? := null;
      var done := false;
      while !done
        invariant Valid() && queueOut == null
        invariant intake == (if done then [] else old(intake)) && outgoing == []
        invariant done ==> IsList(head, old(intake))
        decreases !done
      {
        head := queueIn;
        done := CompareAndSwapIn(head, null);
        if done {
          intake := [];
        }
      }
      Drain(head, old(intake));
      outgoing := Reverse(old(intake));
      ReverseNoDuplicates(old(intake));
      assert intake + outgoing == outgoing;
    }

    /** comm_queue_get */
    method Get() returns (head: Entry?)
      requires Valid()
      modifies this, intake`next
      ensures Valid()
      ensures if old(Contents()) == [] then head == null && Contents() == []
              else head == old(Contents())[0] && Contents() == old(Contents())[1..]
      ensures old(outgoing) == [] ==> intake == [] && outgoing == (if head == null then [] else Reverse(old(intake))[1..])
      ensures old(outgoing) != [] ==> intake == old(intake) && forall e :: e in intake ==> e.next == old(e.next)
    {
      head := null;
      if queueOut == null {
        Refill();
      }
      if queueOut != null {
        head := queueOut;
        queueOut := head.next;
        NoDuplicatesTail(intake, outgoing);
        HeadFirst(outgoing, Reverse(intake));
        outgoing := outgoing[1..];
      }
    }
  }

  lemma ReverseNoDuplicates<T>(xs: seq<T>)
    requires NoDuplicates(xs)
    ensures NoDuplicates(Reverse(xs))
  {
    var r := Reverse(xs);
    forall i, j | 0 <= i < j < |r| ensures r[i] != r[j] {
      ReverseAt(xs, i);
      ReverseAt(xs, j);
    }
  }
}
