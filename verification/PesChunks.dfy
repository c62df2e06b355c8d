/**
 Handing a PES packet to the client in queue writes of at most 65535 bytes, one event each. The loop is
 bounded by the bytes that are left, so a short tail can be skipped.
 */
module PesChunks {

  type Byte = x: int | 0 <= x < 256

  const INT_MAX := 0x7FFF_FFFF

  // `Undefined`: the stream id is read beyond the end of a packet of less than four bytes.
  datatype Status = Success | InvalidState | Undefined

  datatype PesEvent = PesEvent(streamId: Byte, dataLength: nat, mpuSequenceNumber: nat)

  // The number of full chunks, and what is left for the tail.
  function Full(n: nat): (q: nat)
    requires n > 0
    ensures q * 65535 < n <= (q + 1) * 65535
  {
    (n - 1) / 65535
  }

  function Tail(n: nat): (r: nat)
    requires n > 0
    ensures 0 < r <= 65535
  {
    n - Full(n) * 65535
  }

  // The tail is reached: fewer full chunks were sent than bytes are left.
  predicate TailSent(n: nat)
    requires n > 0
  {
    Full(n) < Tail(n)
  }

  function ChunkCount(n: nat): nat
    requires n > 0
  {
    Full(n) + if TailSent(n) then 1 else 0
  }

  function Chunk(data: seq<Byte>, k: nat): (c: seq<Byte>)
    ensures |c| <= 65535
  {
    if (k + 1) * 65535 <= |data| then data[k * 65535..(k + 1) * 65535]
    else if k * 65535 <= |data| then data[k * 65535..]
    else []
  }

  // The first `k` chunks, one after the other.
  function Sent(data: seq<Byte>, k: nat): seq<Byte> {
    if k == 0 then [] else Sent(data, k - 1) + Chunk(data, k - 1)
  }

  function Event(data: seq<Byte>, k: nat, number: nat): PesEvent
    requires |data| >= 4
  {
    PesEvent(data[3], |Chunk(data, k)| % 0x1_0000, number)
  }

  function Events(data: seq<Byte>, k: nat, number: nat): (events: seq<PesEvent>)
    requires |data| >= 4
    ensures |events| == k
  {
    if k == 0 then [] else Events(data, k - 1, number) + [Event(data, k - 1, number)]
  }

  // Before the first event there is no fourth byte to ask for.
  function SafeEvents(data: seq<Byte>, k: nat, number: nat): seq<PesEvent> {
    if |data| >= 4 then Events(data, k, number) else []
  }

  // The first `k` chunks are the beginning of the data.
  lemma {:induction false} SentIsPrefix(data: seq<Byte>, k: nat)
    requires |data| > 0 && k <= Full(|data|) + 1
    ensures Sent(data, k) == if k <= Full(|data|) then data[..k * 65535] else data
  {
    if k == 0 {
    } else {
      SentIsPrefix(data, k - 1);
      ChunkContinues(data, k - 1);
    }
  }

  lemma ChunkContinues(data: seq<Byte>, k: nat)
    requires |data| > 0 && k <= Full(|data|)
    ensures data[..k * 65535] + Chunk(data, k) == if k < Full(|data|) then data[..(k + 1) * 65535] else data
  {
    var from, to := k * 65535, (k + 1) * 65535;
    if k < Full(|data|) {
      assert data[..from] + data[from..to] == data[..to];
    } else {
      assert Chunk(data, k) == data[from..];
      assert data[..from] + data[from..] == data;
    }
  }

  // When every write succeeds, what is delivered is the whole packet exactly if there are fewer full chunks
  // than tail bytes; otherwise it is the full chunks and the tail is lost.
  lemma {:induction false} DeliversExactly(data: seq<Byte>)
    requires |data| > 0
    ensures var n := |data|;
            && Sent(data, ChunkCount(n)) == (if TailSent(n) then data else data[..Full(n) * 65535])
            && (Sent(data, ChunkCount(n)) == data <==> Full(n) < Tail(n))
            && |data| - |Sent(data, ChunkCount(n))| == (if TailSent(n) then 0 else Tail(n))
  {
    SentIsPrefix(data, ChunkCount(|data|));
  }

  // No packet that fits one chunk loses its tail; the shortest packet that does is one byte longer.
  lemma ShortestLoss(n: nat)
    requires n > 0
    ensures n <= 65535 ==> TailSent(n)
    ensures !TailSent(65536)
  {
  }

  lemma {:induction false} EventAt(data: seq<Byte>, k: nat, number: nat, j: nat, events: seq<PesEvent>)
    requires |data| >= 4 && j < k && events == Events(data, k, number)
    ensures events[j] == Event(data, j, number)
  {
    if j == k - 1 {
    } else {
      EventAt(data, k - 1, number, j, Events(data, k - 1, number));
    }
  }

  // Each event carries the stream id and the exact length of its chunk, which is a slice of the packet.
  lemma EventIsExact(data: seq<Byte>, j: nat, number: nat)
    requires |data| >= 4
    ensures Event(data, j, number) == PesEvent(data[3], |Chunk(data, j)|, number)
  {
  }

  lemma ChunkIsSlice(data: seq<Byte>, j: nat)
    requires j * 65535 < |data|
    ensures var c := Chunk(data, j); 0 < |c| && j * 65535 + |c| <= |data| && c == data[j * 65535..j * 65535 + |c|]
  {
  }

  // What one iteration cuts out.
  lemma CutsChunk(data: seq<Byte>, i: nat)
    requires i * 65535 < |data|
    ensures |data| - i * 65535 > 65535 ==>
              (i + 1) * 65535 <= |data| && Chunk(data, i) == data[i * 65535..(i + 1) * 65535]
    ensures |data| - i * 65535 <= 65535 ==> Chunk(data, i) == data[i * 65535..]
  {
  }

  // The queue takes the first `k` writes.
  predicate Taken(accepts: nat -> bool, k: nat) {
    forall j: nat :: j < k ==> accepts(j)
  }

  // The loop's counters between iterations.
  predicate InLoop(n: nat, i: nat, left: nat) {
    if left == 0 then i > 0 && n - (i - 1) * 65535 <= 65535 && i - 1 < n - (i - 1) * 65535
    else left == n - i * 65535
  }

  // Within the range of a C int the counter catches up with what is left only behind the last full chunk.
  lemma LoopEnds(n: nat, i: nat, left: nat)
    requires 0 < n <= INT_MAX && InLoop(n, i, left) && i >= left
    ensures i == ChunkCount(n)
  {
  }

  // Before the end no more chunks have been sent than there are.
  lemma LoopBelow(n: nat, i: nat)
    requires 0 < n && i * 65535 < n && i < n - i * 65535
    ensures i < ChunkCount(n)
  {
  }

  lemma Regroup<T>(a: seq<T>, b: seq<T>, c: seq<T>)
    ensures (a + b) + c == a + (b + c)
  {
  }

  lemma GrowsByChunk(data: seq<Byte>, i: nat, mq: seq<Byte>, events: seq<PesEvent>, number: nat)
    requires |data| >= 4
    ensures (mq + Sent(data, i)) + Chunk(data, i) == mq + Sent(data, i + 1)
    ensures (events + SafeEvents(data, i, number)) + [Event(data, i, number)]
         == events + SafeEvents(data, i + 1, number)
  {
    Regroup(mq, Sent(data, i), Chunk(data, i));
    Regroup(events, Events(data, i, number), [Event(data, i, number)]);
  }

  class Filter {
    var filterOutput: seq<Byte>
    var pesOutput: seq<Byte>
    var filterMQ: seq<Byte>
    var events: seq<PesEvent>
    var sequenceNumber: nat

    // `accepts` tells which writes the queue takes; a refused write leaves it as it is.
    method WriteDataToFilterMQ(k: nat, accepts: nat -> bool) returns (ok: bool)
      modifies this`filterMQ
      ensures ok == accepts(k) && filterMQ == if ok then old(filterMQ) + pesOutput else old(filterMQ)
    {
      ok := accepts(k);
      if ok {
        filterMQ := filterMQ + pesOutput;
      }
    }

    // What both branches of the loop do with the chunk they cut out. The event reports the fourth byte of the
    // packet.
    method SendChunk(k: nat, accepts: nat -> bool) returns (r: Status)
      requires pesOutput == Chunk(filterOutput, k)
      modifies this`filterMQ, this`events, this`pesOutput, this`filterOutput
      ensures r == if !accepts(k) then InvalidState else if |old(filterOutput)| < 4 then Undefined else Success
      ensures filterMQ == if accepts(k) then old(filterMQ) + Chunk(old(filterOutput), k) else old(filterMQ)
      ensures r.InvalidState? ==> pesOutput == [] && filterOutput == [] && events == old(events)
      ensures r.Success? ==>
                && pesOutput == [] && filterOutput == old(filterOutput)
                && events == old(events) + [Event(filterOutput, k, sequenceNumber)]
    {
      var ok := WriteDataToFilterMQ(k, accepts);
      if !ok {
        pesOutput, filterOutput := [], [];
        return InvalidState;
      }
      if |filterOutput| < 4 {
        return Undefined;
      }
      events := events + [PesEvent(filterOutput[3], |pesOutput| % 0x1_0000, sequenceNumber)];
      pesOutput := [];
      return Success;
    }

    // The two branches: the next full chunk, or everything that is left.
    method CutChunk(i: nat, left: nat) returns (left': nat)
      requires pesOutput == [] && i < left && InLoop(|filterOutput|, i, left)
      modifies this`pesOutput
      ensures pesOutput == Chunk(filterOutput, i) && left' < left && i < ChunkCount(|filterOutput|)
      ensures InLoop(|filterOutput|, i + 1, left')
    {
      CutsChunk(filterOutput, i);
      LoopBelow(|filterOutput|, i);
      if left > 65535 {
        pesOutput := pesOutput + filterOutput[i * 65535..(i + 1) * 65535];
        left' := left - 65535;
      } else {
        pesOutput := pesOutput + filterOutput[i * 65535..];
        left' := 0;
      }
    }

    // The first `k` chunks of `data` have been written to the queue, and their events added, since the queue
    // held `mq` and the events were `sent`.
    ghost predicate Delivered(data: seq<Byte>, k: nat, mq: seq<Byte>, sent: seq<PesEvent>)
      reads this
    {
      filterMQ == mq + Sent(data, k) && events == sent + SafeEvents(data, k, sequenceNumber)
    }

    // One iteration.
    method SendNext(i: nat, left: nat, accepts: nat -> bool, ghost mq: seq<Byte>, ghost sent: seq<PesEvent>)
      returns (r: Status, left': nat)
      requires pesOutput == [] && i < left && InLoop(|filterOutput|, i, left) && Delivered(filterOutput, i, mq, sent)
      modifies this`filterMQ, this`events, this`pesOutput, this`filterOutput
      ensures r == if !accepts(i) then InvalidState else if |old(filterOutput)| < 4 then Undefined else Success
      ensures i < ChunkCount(|old(filterOutput)|)
      ensures r.Success? ==>
                && filterOutput == old(filterOutput) && pesOutput == [] && Delivered(filterOutput, i + 1, mq, sent)
                && left' < left && InLoop(|filterOutput|, i + 1, left')
      ensures r.InvalidState? ==> pesOutput == [] && Delivered(old(filterOutput), i, mq, sent)
    {
      left' := CutChunk(i, left);
      r := SendChunk(i, accepts);
      if r.Success? {
        GrowsByChunk(filterOutput, i, mq, sent, sequenceNumber);
      }
    }

    // The loop over a packet; `sent` counts the chunks delivered with their events.
    method SendChunks(accepts: nat -> bool) returns (r: Status, sent: nat)
      requires pesOutput == [] && 0 < |filterOutput| <= INT_MAX
      modifies this`filterMQ, this`events, this`pesOutput, this`filterOutput
      ensures r.Undefined? <==> |old(filterOutput)| < 4 && accepts(0)
      ensures !r.Undefined? ==>
                && pesOutput == [] && Taken(accepts, sent)
                && (if r.Success? then sent == ChunkCount(|old(filterOutput)|)
                    else sent < ChunkCount(|old(filterOutput)|) && !accepts(sent))
                && Delivered(old(filterOutput), sent, old(filterMQ), old(events))
    {
      var left: nat := |filterOutput|;
      ghost var data, mq, before := filterOutput, filterMQ, events;
      assert mq + [] == mq && before + [] == before;
      var i := 0;
      while i < left
        invariant filterOutput == data && pesOutput == [] && (i > 0 ==> |data| >= 4)
        invariant 0 <= i && InLoop(|data|, i, left) && Taken(accepts, i) && Delivered(data, i, mq, before)
        decreases left
      {
        r, left := SendNext(i, left, accepts, mq, before);
        if !r.Success? {
          return r, i;
        }
        i := i + 1;
      }
      LoopEnds(|data|, i, left);
      return Success, i;
    }

    method StartPesFilterHandler(accepts: nat -> bool) returns (r: Status, sent: nat)
      requires pesOutput == [] && |filterOutput| <= INT_MAX && sequenceNumber <= 0xFFFF_FFFF
      modifies this
      ensures r.Undefined? <==> 0 < |old(filterOutput)| < 4 && accepts(0)
      ensures old(filterOutput) == [] ==>
                && r.Success? && filterOutput == pesOutput == []
                && filterMQ == old(filterMQ) && events == old(events) && sequenceNumber == old(sequenceNumber)
      ensures old(filterOutput) != [] && !r.Undefined? ==>
                && filterOutput == pesOutput == []
                && sequenceNumber == (old(sequenceNumber) + 1) % 0x1_0000_0000
                && Taken(accepts, sent)
                && (if r.Success? then sent == ChunkCount(|old(filterOutput)|)
                    else sent < ChunkCount(|old(filterOutput)|) && !accepts(sent))
                && Delivered(old(filterOutput), sent, old(filterMQ), old(events))
    {
      if filterOutput == [] {
        return Success, 0;
      }
      if sequenceNumber == 0xFFFF_FFFF {
        sequenceNumber := 0;
      } else {
        sequenceNumber := sequenceNumber + 1;
      }
      r, sent := SendChunks(accepts);
      if r.Undefined? {
        return;
      }
      filterOutput := [];
    }
  }
}
