/**
 Sending a message as a header and then in parts. A data call writes msg_write_len bytes of its
 buffer, but msg_len bytes when msg_write_len is 0, so an empty part is not what it looks like.
 */
module Chunks {
  import opened Sequences
  import opened Framing

  /** What one call of send_data finds in its message: msg_write_len, and the buffer behind data. */
  datatype DataCall = DataCall(writeLen: u64, buffer: seq<byte>)

  function CallHeader(h: Header, call: DataCall): Header {
    h.(msgWriteLen := call.writeLen)
  }

  /** The length fits ssize_t, and the buffer holds what the call is going to write. */
  predicate Callable(h: Header, call: DataCall) {
    call.writeLen < SSIZE_LIMIT && SendLen(CallHeader(h, call)) <= |call.buffer|
  }

  predicate AllCallable(h: Header, calls: seq<DataCall>) {
    forall call :: call in calls ==> Callable(h, call)
  }

  /** The bytes the caller means to send: the first msg_write_len of the buffer. */
  function Chunk(call: DataCall): seq<byte> {
    if call.writeLen <= |call.buffer| then call.buffer[..call.writeLen] else call.buffer
  }

  /** The bytes the loop of the call writes. */
  function Written(h: Header, call: DataCall): seq<byte> {
    if SendLen(CallHeader(h, call)) <= |call.buffer| then call.buffer[..SendLen(CallHeader(h, call))] else call.buffer
  }

  function ChunksOf(calls: seq<DataCall>): seq<seq<byte>> {
    if calls == [] then [] else [Chunk(calls[0])] + ChunksOf(calls[1..])
  }

  function WrittenAll(h: Header, calls: seq<DataCall>): seq<seq<byte>> {
    if calls == [] then [] else [Written(h, calls[0])] + WrittenAll(h, calls[1..])
  }

  /** An empty chunk does no harm only where there is no payload at all. */
  predicate NoEmptyChunk(h: Header, calls: seq<DataCall>) {
    PayloadLen(h) == 0 || forall call :: call in calls ==> call.writeLen > 0
  }

  /** Every empty chunk adds msg_len bytes. */
  lemma {:induction false} EmptyChunksAdd(h: Header, calls: seq<DataCall>)
    requires AllCallable(h, calls)
    ensures |Flatten(WrittenAll(h, calls))| >= |Flatten(ChunksOf(calls))|
    ensures !NoEmptyChunk(h, calls) ==> |Flatten(WrittenAll(h, calls))| > |Flatten(ChunksOf(calls))|
    ensures NoEmptyChunk(h, calls) ==> WrittenAll(h, calls) == ChunksOf(calls)
  {
    if calls != [] {
      EmptyChunksAdd(h, calls[1..]);
      assert Callable(h, calls[0]);
      assert calls == [calls[0]] + calls[1..];
      assert WrittenAll(h, calls)[1..] == WrittenAll(h, calls[1..]);
      assert ChunksOf(calls)[1..] == ChunksOf(calls[1..]);
    }
  }

  /** What is written is what was meant if and only if no chunk is empty, or there is no payload. */
  lemma WrittenIsMeant(h: Header, calls: seq<DataCall>)
    requires AllCallable(h, calls)
    ensures Flatten(WrittenAll(h, calls)) == Flatten(ChunksOf(calls)) <==> NoEmptyChunk(h, calls)
  {
    EmptyChunksAdd(h, calls);
  }
}
