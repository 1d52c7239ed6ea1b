/** Feeds a terminal in bounded chunks, one outstanding write at a time, and starts a new
    generation whenever it drops what it holds. */
module TerminalScheduler {
  import opened Common

  /** What became of one enqueue. */
  datatype Enqueued = Taken | Overflowed | Discarded

  class TerminalOutputScheduler {
    const maxForegroundBytes: nat
    const maxBackgroundBytes: nat
    const chunkBytes: nat
    var queue: seq<Bytes>
    var queuedBytes: int
    var writing: bool
    var disposed: bool
    var generation: nat
    var stallTimer: Option<nat>  // the generation its handler was created in

    // The terminal and the event loop, as far as this generation can tell.
    ghost var accepted: Bytes           // everything enqueued in this generation
    ghost var written: seq<Bytes>       // the chunks handed to the terminal in this generation
    ghost var callbacks: multiset<nat>  // write callbacks still to come, by generation
    ghost var pumps: nat                // deferred pumps still to run

    function Limit(background: bool): nat {
      if background then maxBackgroundBytes else maxForegroundBytes
    }

    /** Chunks are real and bounded, and written plus queued bytes are the accepted ones in order. */
    ghost predicate Exact()
      reads this`queue, this`queuedBytes, this`written, this`accepted
    {
      && (forall i | 0 <= i < |queue| :: queue[i] != [])
      && queuedBytes == Total(queue)
      && (forall i | 0 <= i < |written| :: 0 < |written[i]| <= chunkBytes)
      && Flatten(written) + Flatten(queue) == accepted
      && (queuedBytes <= maxForegroundBytes || queuedBytes <= maxBackgroundBytes)
    }

    /** One write outstanding at most; the stall timer runs exactly while it is. */
    ghost predicate OneWrite()
      reads this`callbacks, this`generation, this`writing, this`stallTimer, this`disposed, this`queue
    {
      && callbacks[generation] == (if writing then 1 else 0)
      && (forall g | g in callbacks :: g <= generation)
      && stallTimer == (if writing then Some(generation) else None)
      && (disposed ==> !writing && queue == [])
    }

    /** A queue that nobody is writing has a pump coming. */
    ghost predicate NeverStuck()
      reads this`writing, this`queue, this`pumps
    {
      !writing && queue != [] ==> pumps > 0
    }

    ghost predicate Valid()
      reads this
    {
      chunkBytes > 0 && Exact() && OneWrite() && NeverStuck()
    }

    constructor (maxForegroundBytes: nat, maxBackgroundBytes: nat, chunkBytes: nat)
      requires chunkBytes > 0
      ensures Valid() && !disposed && accepted == [] && queuedBytes == 0
      ensures this.maxForegroundBytes == maxForegroundBytes && this.maxBackgroundBytes == maxBackgroundBytes
    {
      this.maxForegroundBytes, this.maxBackgroundBytes := maxForegroundBytes, maxBackgroundBytes;
      this.chunkBytes := chunkBytes;
      queue, queuedBytes, writing, disposed, generation, stallTimer := [], 0, false, false, 0, None;
      accepted, written, callbacks, pumps := [], [], multiset{}, 0;
    }

    /** Accepts data in order, or overflows and starts over empty. */
    method Enqueue(data: Bytes, background: bool) returns (ok: bool, ghost outcome: Enqueued)
      requires Valid()
      modifies this
      ensures Valid() && disposed == old(disposed)
      ensures ok <==> outcome == Taken
      ensures var limit := if background then maxBackgroundBytes else maxForegroundBytes;
        outcome == if disposed then Discarded
          else if data != [] && old(queuedBytes) + |data| > limit then Overflowed else Taken
      ensures outcome == Taken ==> generation == old(generation) && accepted == old(accepted) + data
      ensures outcome == Overflowed ==> generation == old(generation) + 1 && accepted == []
      ensures outcome == Discarded ==> generation == old(generation) && accepted == old(accepted)
    {
      if disposed || data == [] {
        assert accepted + data == accepted || disposed;
        return !disposed, if disposed then Discarded else Taken;
      }
      if queuedBytes + |data| > Limit(background) {
        Recover();
        return false, Overflowed;
      }
      Push(data);
      Pump();
      return true, Taken;
    }

    method Push(data: Bytes)
      requires Exact() && OneWrite() && !disposed && data != []
      requires queuedBytes + |data| <= maxForegroundBytes || queuedBytes + |data| <= maxBackgroundBytes
      modifies this`queue, this`queuedBytes, this`accepted
      ensures Exact() && OneWrite() && accepted == old(accepted) + data
    {
      hide Flatten, Total, Limit;
      FlattenSnoc(queue, data);
      TotalSnoc(queue, data);
      assert Flatten(written) + (Flatten(queue) + data) == accepted + data;
      queue := queue + [data];
      queuedBytes := queuedBytes + |data|;
      accepted := accepted + data;
    }

    /** Forgets everything held and moves to a new generation. */
    method Recover()
      requires Valid()
      modifies this`generation, this`queue, this`queuedBytes, this`writing, this`stallTimer, this`accepted, this`written
      ensures Valid() && generation == old(generation) + 1
      ensures queue == [] && queuedBytes == 0 && written == [] && accepted == [] && !writing
    {
      hide Limit;
      generation := generation + 1;
      queue, queuedBytes, writing, stallTimer := [], 0, false, None;
      accepted, written := [], [];
    }

    method Dispose()
      requires Valid()
      modifies this
      ensures Valid() && disposed && queue == [] && generation == old(generation) + 1
    {
      Recover();
      disposed := true;
    }

    /** Hands the next chunk to the terminal unless a write is outstanding. */
    method Pump()
      requires chunkBytes > 0 && Exact() && OneWrite()
      modifies this`queue, this`queuedBytes, this`writing, this`stallTimer, this`written, this`callbacks
      ensures Valid() && accepted == old(accepted) && queuedBytes <= old(queuedBytes)
      ensures old(writing || disposed || queue == []) ==>
        queue == old(queue) && written == old(written) && callbacks == old(callbacks)
      ensures !old(writing || disposed || queue == []) ==>
        writing && |written| == |old(written)| + 1 && written[..|old(written)|] == old(written)
        && |written[|old(written)|]| == Min(|old(queue)[0]|, chunkBytes)
    {
      hide Flatten, Total;
      if disposed || writing || queue == [] {
        return;
      }
      var chunk := NextChunk();
      FlattenSnoc(written, chunk);
      assert (Flatten(written) + chunk) + Flatten(queue) == Flatten(written) + (chunk + Flatten(queue));
      writing := true;
      stallTimer := Some(generation);
      written := written + [chunk];
      callbacks := callbacks + multiset{generation};
    }

    /** Cuts the next chunk off the front of the queue. */
    method NextChunk() returns (chunk: Bytes)
      requires queue != [] && chunkBytes > 0 && queuedBytes == Total(queue)
      requires forall i | 0 <= i < |queue| :: queue[i] != []
      modifies this`queue, this`queuedBytes
      ensures 0 < |chunk| <= chunkBytes && chunk + Flatten(queue) == Flatten(old(queue))
      ensures queuedBytes == Total(queue) == old(queuedBytes) - |chunk|
      ensures |chunk| == Min(|old(queue)[0]|, chunkBytes)
      ensures forall i | 0 <= i < |queue| :: queue[i] != []
    {
      var head := queue[0];
      chunk := if |head| <= chunkBytes then head else head[..chunkBytes];
      SplitHead(queue, |chunk|);
      if |chunk| == |head| {
        queue := queue[1..];
      } else {
        queue := queue[0 := head[|chunk|..]];
      }
      queuedBytes := queuedBytes - |chunk|;
    }

    /** The terminal reports a chunk as parsed. A callback of an earlier generation changes nothing. */
    method WriteDone(g: nat)
      requires Valid() && g in callbacks
      modifies this`writing, this`stallTimer, this`callbacks, this`pumps
      ensures Valid() && callbacks == old(callbacks) - multiset{g}
      ensures g != generation || disposed ==>
        writing == old(writing) && stallTimer == old(stallTimer) && pumps == old(pumps)
      ensures g == generation && !disposed ==> !writing && pumps == old(pumps) + 1
    {
      hide Exact;
      callbacks := callbacks - multiset{g};
      if g != generation || disposed {
        return;
      }
      stallTimer := None;
      writing := false;
      pumps := pumps + 1;
    }

    /** A deferred pump runs. */
    method DeferredPump()
      requires Valid() && pumps > 0
      modifies this`queue, this`queuedBytes, this`writing, this`stallTimer, this`written, this`callbacks, this`pumps
      ensures Valid() && accepted == old(accepted) && pumps == old(pumps) - 1 && queuedBytes <= old(queuedBytes)
    {
      pumps := pumps - 1;
      Pump();
    }

    /** The stall timer fires: the queue is dropped if the write it watched is still outstanding. */
    method StallFires() returns (stalled: bool)
      requires Valid() && stallTimer.Some?
      modifies this
      ensures Valid() && stalled && !old(disposed)
      ensures generation == old(generation) + 1 && queue == [] && accepted == []
    {
      if disposed || stallTimer.value != generation || !writing {
        return false;
      }
      Recover();
      return true;
    }
  }

  /** Splitting bytes off the first chunk of a queue keeps the bytes and their count. */
  lemma SplitHead(queue: seq<Bytes>, n: nat)
    requires queue != [] && n <= |queue[0]|
    ensures var rest := if n == |queue[0]| then queue[1..] else queue[0 := queue[0][n..]];
      queue[0][..n] + Flatten(rest) == Flatten(queue) && Total(rest) == Total(queue) - n
  {
    var head := queue[0];
    if n == |head| {
      assert head[..n] == head;
    } else {
      var rest := queue[0 := head[n..]];
      assert rest[1..] == queue[1..];
      assert head[..n] + (head[n..] + Flatten(queue[1..])) == (head[..n] + head[n..]) + Flatten(queue[1..]);
      assert head[..n] + head[n..] == head;
    }
  }
}
