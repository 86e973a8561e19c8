/** The two ends of the queue in the server's own code: the accept thread fills it, a worker in its turn empties it. */
module Adopter {
  import opened Sequences
  import opened Rotation
  import opened WorkQueue

  /** What the top of a worker's loop came to. */
  datatype Turn = NotMine | Nothing | AddFailed(fd: int) | Adopted(fd: int)

  /** The part of comm_serv_thread behind accept: a new entry for the descriptor, put into the queue. */
  method Enqueue(queue: Queue, fd: int) returns (entry: Entry)
    requires queue.Valid()
    modifies queue
    ensures queue.Valid() && fresh(entry) && entry.socketFd == fd
    ensures queue.Contents() == old(queue.Contents()) + [entry]
  {
    entry := new Entry(fd);
    queue.Insert(entry);
  }

  /** What of comm_worker_info_t takes part in adoption. The ghost fields count turns and how they ended. */
  class TurnTaker {
    const index: nat
    const numWorkers: nat
    var numFds: nat
    ghost var turns: nat
    ghost var emptyGets: nat
    ghost var failedAdds: nat
    ghost var registered: seq<int>
    /** The entries freed, in order. */
    ghost var freed: seq<Entry>

    constructor (index: nat, numWorkers: nat)
      requires index < numWorkers
      ensures Valid() && turns == 0 && registered == [] && freed == []
      ensures this.index == index && this.numWorkers == numWorkers
    {
      this.index, this.numWorkers := index, numWorkers;
      numFds, turns, emptyGets, failedAdds, registered, freed := 0, 0, 0, 0, [], [];
    }

    /** num_fds is the number of descriptors registered, and every turn ended in one of three ways. */
    ghost predicate Valid()
      reads this
    {
      index < numWorkers && numFds == |registered| && turns == numFds + emptyGets + failedAdds
    }

    /**
     The top of the loop of comm_worker_run, when no other thread comes in between. addOk says
     whether epoll_ctl succeeds.
     */
    method TakeTurn(counter: TurnCounter, queue: Queue, addOk: bool) returns (turn: Turn)
      requires Valid() && queue.Valid()
      modifies this, counter, queue, queue.intake`next
      ensures Valid() && queue.Valid()
      ensures counter.cur == NextTurn(old(counter.cur), index, numWorkers)
      ensures turn == NotMine <==> old(counter.cur) != index
      ensures turns == old(turns) + (if turn == NotMine then 0 else 1)
      ensures turn == NotMine || turn == Nothing ==> queue.Contents() == old(queue.Contents())
      ensures turn == Nothing ==> queue.Contents() == []
      ensures turn.AddFailed? || turn.Adopted? ==>
                && old(queue.Contents()) != [] && queue.Contents() == old(queue.Contents())[1..]
                && var head := old(queue.Contents())[0];
                   turn == if addOk then Adopted(head.socketFd) else AddFailed(head.socketFd)
      ensures freed == old(freed) +
                (if turn.AddFailed? || turn.Adopted? then [old(queue.Contents())[0]] else [])
      ensures registered == old(registered) + if turn.Adopted? then [turn.fd] else []
    {
      var workerIndex := counter.GetWorkerIndex(index, numWorkers);
      if workerIndex != index {
        return NotMine;
      }
      turns := turns + 1;
      var entry := queue.Get();
      if entry == null {
        emptyGets := emptyGets + 1;
        return Nothing;
      }
      var fd := entry.socketFd;
      if !addOk {
        freed := freed + [entry];
        failedAdds := failedAdds + 1;
        return AddFailed(fd);
      }
      registered := registered + [fd];
      freed := freed + [entry];
      numFds := numFds + 1;
      turn := Adopted(fd);
    }
  }
}
