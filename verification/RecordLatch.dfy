/**
 The record queue of a DVR: chunks are written until the queue is full, then dropped until the client
 flushes. A flush drains the queue in steps between which the record thread and the client go on.
 */
module RecordLatch {

  type Byte = x: int | 0 <= x < 256

  datatype Status = DataReady | LowWater | HighWater | Overflow

  // Settings that do not change while recording. `unit` is the flush buffer, a hundred packets.
  datatype Config = Config(capacity: nat, high: int, low: int, unit: nat, callback: bool, configured: bool)

  predicate ValidConfig(c: Config) {
    c.capacity > 0 && c.unit > 0
  }

  datatype Taken = ByClient(bytes: seq<Byte>) | ByFlush(bytes: seq<Byte>)

  datatype Flusher = Idle | Draining(left: nat) | Resetting

  // A writer that has found no overflow and will write its chunk, and one that has still to check the status.
  datatype Writer = Away | Passed(chunk: seq<Byte>) | ToCheck

  // `accepted` are the chunks that went into the queue and `taken` what came out of it, in order.
  datatype State = State(queue: seq<Byte>, status: Status, writer: Writer, flusher: Flusher,
                         accepted: seq<seq<Byte>>, taken: seq<Taken>)

  // A write and a flush have several steps, between which the others go on; an event that is not enabled
  // changes nothing. `Write` is the test of the status at the head of a write.
  datatype Event =
    | Write(chunk: seq<Byte>)
    | WriteQueue
    | WriteCheck
    | ClientRead(n: nat)
    | Start
    | FlushBegin
    | FlushStep

  // `checkRecordStatusChange`.
  function Check(c: Config, s: State): Status {
    if |s.queue| >= c.capacity then Overflow
    else if |s.queue| > c.high then HighWater
    else if |s.queue| < c.low then LowWater
    else s.status
  }

  // `maySendRecordStatusCallback`: without a callback the status is not kept either.
  function Notify(c: Config, s: State): State {
    if c.callback then s.(status := Check(c, s)) else s
  }

  // The head of `writeRecordFMQ`: while the status is Overflow the function returns at once.
  function DoTest(s: State, chunk: seq<Byte>): State {
    if s.writer.Away? && !s.status.Overflow? then s.(writer := Passed(chunk)) else s
  }

  // Its queue write, whatever the status is by now: a chunk that does not fit is refused.
  function DoQueue(c: Config, s: State): State {
    if !s.writer.Passed? then s
    else if Fits(c, s, s.writer.chunk) then
      s.(queue := s.queue + s.writer.chunk, accepted := s.accepted + [s.writer.chunk], writer := ToCheck)
    else s.(writer := ToCheck)
  }

  predicate Fits(c: Config, s: State, chunk: seq<Byte>) {
    |s.queue| + |chunk| <= c.capacity
  }

  function DoCheck(c: Config, s: State): State {
    if s.writer.ToCheck? then Notify(c, s.(writer := Away)) else s
  }

  // Taking the next `n` bytes; a read of more than there is fails and takes nothing.
  function Take(s: State, n: nat, flush: bool): State {
    if n == 0 || n > |s.queue| then s
    else s.(queue := s.queue[n..], taken := s.taken + [if flush then ByFlush(s.queue[..n]) else ByClient(s.queue[..n])])
  }

  // The next read of a flush, or its end, where the status is reset and then checked again.
  function DoFlush(c: Config, s: State): State {
    match s.flusher
    case Idle => s
    case Draining(left) =>
      if left == 0 then s.(status := DataReady, flusher := Resetting)
      else
        var n := if left > c.unit then c.unit else left;
        Take(s, n, true).(flusher := Draining(left - n))
    case Resetting => Notify(c, s.(flusher := Idle))
  }

  function Next(c: Config, s: State, e: Event): State {
    match e
    case Write(chunk) => DoTest(s, chunk)
    case WriteQueue => DoQueue(c, s)
    case WriteCheck => DoCheck(c, s)
    case ClientRead(n) => Take(s, n, false)
    case Start => if c.callback && c.configured then s.(status := DataReady) else s
    case FlushBegin => if s.flusher.Idle? then s.(flusher := Draining(|s.queue|)) else s
    case FlushStep => DoFlush(c, s)
  }

  function Run(c: Config, s: State, es: seq<Event>): State
    decreases |es|
  {
    if es == [] then s else Run(c, Next(c, s, es[0]), es[1..])
  }

  // ---------- conservation ----------

  function Concat(chunks: seq<seq<Byte>>): seq<Byte> {
    if chunks == [] then [] else Concat(chunks[..|chunks| - 1]) + chunks[|chunks| - 1]
  }

  function TakenBytes(taken: seq<Taken>): seq<Byte> {
    if taken == [] then [] else TakenBytes(taken[..|taken| - 1]) + taken[|taken| - 1].bytes
  }

  // The bytes ever queued are whole accepted chunks, and equal those read, flushed or still queued, in order.
  predicate Inv(c: Config, s: State) {
    TakenBytes(s.taken) + s.queue == Concat(s.accepted) && |s.queue| <= c.capacity
  }

  lemma WriteKeeps(c: Config, s: State)
    requires Inv(c, s)
    ensures Inv(c, DoQueue(c, s))
  {
    if s.writer.Passed? && Fits(c, s, s.writer.chunk) {
      var x, all := s.writer.chunk, s.accepted + [s.writer.chunk];
      assert all[..|all| - 1] == s.accepted && all[|all| - 1] == x;
      assert TakenBytes(s.taken) + (s.queue + x) == (TakenBytes(s.taken) + s.queue) + x;
    }
  }

  lemma TakeKeeps(c: Config, s: State, n: nat, flush: bool)
    requires Inv(c, s)
    ensures Inv(c, Take(s, n, flush))
  {
    if 0 < n <= |s.queue| {
      var q, t := s.queue, Take(s, n, flush).taken;
      assert t[..|t| - 1] == s.taken && t[|t| - 1].bytes == q[..n];
      assert (TakenBytes(s.taken) + q[..n]) + q[n..] == TakenBytes(s.taken) + q;
    }
  }

  lemma NextKeeps(c: Config, s: State, e: Event)
    requires ValidConfig(c) && Inv(c, s)
    ensures Inv(c, Next(c, s, e))
  {
    match e
    case WriteQueue => WriteKeeps(c, s);
    case ClientRead(n) => TakeKeeps(c, s, n, false);
    case FlushStep =>
      if s.flusher.Draining? && s.flusher.left > 0 {
        TakeKeeps(c, s, if s.flusher.left > c.unit then c.unit else s.flusher.left, true);
      }
    case _ =>
  }

  // Over every run and every interleaving of flushes.
  lemma {:induction false} RunConserves(c: Config, s: State, es: seq<Event>)
    requires ValidConfig(c) && Inv(c, s)
    ensures Inv(c, Run(c, s, es))
    decreases |es|
  {
    if es == [] {
    } else {
      NextKeeps(c, s, es[0]);
      RunConserves(c, Next(c, s, es[0]), es[1..]);
    }
  }

  // ---------- the latch ----------

  // A step that checks the status: the end of a write or of a flush.
  predicate Checks(s: State, e: Event) {
    (e.WriteCheck? && s.writer.ToCheck?) || (e.FlushStep? && s.flusher.Resetting?)
  }

  // The status is reset by a start or a flush. A check that a write or a flush had still to make also ends
  // the overflow, if the client has read so much in the meantime that a threshold is crossed.
  predicate Releases(c: Config, s: State, e: Event) {
    || (e.Start? && c.callback && c.configured)
    || (e.FlushStep? && s.flusher == Draining(0))
    || (Checks(s, e) && c.callback && |s.queue| < c.capacity && (|s.queue| > c.high || |s.queue| < c.low))
  }

  // Exactly these steps end an overflow.
  lemma OverflowEndsExactly(c: Config, s: State, e: Event)
    requires ValidConfig(c) && s.status.Overflow?
    ensures !Next(c, s, e).status.Overflow? <==> Releases(c, s, e)
  {
  }

  // It begins exactly with a check that finds the queue full to the last byte, if there is a callback. A chunk
  // that does not fit is refused but begins nothing while space is left.
  lemma OverflowBeginsExactly(c: Config, s: State, e: Event)
    requires Inv(c, s) && !s.status.Overflow?
    ensures Next(c, s, e).status.Overflow? <==> Checks(s, e) && c.callback && |s.queue| == c.capacity
  {
  }

  // A write that the latch does not stop gets its chunk into the queue exactly if it fits then. The status at
  // that moment does not matter, and does not change.
  lemma QueueWriteExactly(c: Config, s: State)
    requires s.writer.Passed?
    ensures var t := DoQueue(c, s);
            && t.queue == s.queue + (if Fits(c, s, s.writer.chunk) then s.writer.chunk else [])
            && t.accepted == s.accepted + (if Fits(c, s, s.writer.chunk) then [s.writer.chunk] else [])
            && t.status == s.status && t.writer.ToCheck?
  {
    assert s.queue + [] == s.queue && s.accepted + [] == s.accepted;
  }

  // What a check makes of the status: OVERFLOW when the queue is full, else HIGH_WATER above the high threshold,
  // else LOW_WATER below the low one, else what it was; and nothing without a callback.
  lemma CheckExactly(c: Config, s: State, e: Event)
    requires Checks(s, e)
    ensures var now, was, n := Next(c, s, e).status, s.status, |s.queue|;
            && (c.callback && n >= c.capacity ==> now == Overflow)
            && (c.callback && n < c.capacity && n > c.high ==> now == HighWater)
            && (c.callback && n < c.capacity && n <= c.high && n < c.low ==> now == LowWater)
            && (c.callback && n < c.capacity && n <= c.high && n >= c.low ==> now == was)
            && (!c.callback ==> now == was)
  {
  }

  // Other steps set the status to DATA_READY, or leave it.
  lemma OtherStatusExactly(c: Config, s: State, e: Event)
    requires !Checks(s, e)
    ensures Next(c, s, e).status ==
            if (e.Start? && c.callback && c.configured) || (e.FlushStep? && s.flusher == Draining(0)) then DataReady
            else s.status
  {
  }

  // What each step takes out of the queue: a read of the client exactly the bytes it asks for, if they are there,
  // and a flush at most a buffer of what was there when it began.
  lemma TakesExactly(c: Config, s: State, e: Event)
    ensures var t := Next(c, s, e);
            if e.ClientRead? && 0 < e.n <= |s.queue| then
              t.queue == s.queue[e.n..] && t.taken == s.taken + [ByClient(s.queue[..e.n])]
            else if e.FlushStep? && s.flusher.Draining? && s.flusher.left > 0 && c.unit > 0 then
              var n := if s.flusher.left <= c.unit then s.flusher.left else c.unit;
              && t.flusher == Draining(s.flusher.left - n)
              && (n <= |s.queue| ==> t.queue == s.queue[n..] && t.taken == s.taken + [ByFlush(s.queue[..n])])
              && (n > |s.queue| ==> t.queue == s.queue && t.taken == s.taken)
            else c.unit > 0 ==> t.taken == s.taken && s.queue <= t.queue
  {
  }

  // A flush begins with what is in the queue then, and another one waits for its end.
  lemma FlushBegins(c: Config, s: State)
    ensures Next(c, s, FlushBegin) == if s.flusher == Idle then s.(flusher := Draining(|s.queue|)) else s
  {
  }

  predicate NeverReleased(c: Config, s: State, es: seq<Event>)
    decreases |es|
  {
    es == [] || (!Releases(c, s, es[0]) && NeverReleased(c, Next(c, s, es[0]), es[1..]))
  }

  // What a write that is already under way may still bring.
  function UnderWay(s: State): seq<seq<Byte>> {
    if s.writer.Passed? then [s.writer.chunk] else []
  }

  // Once the status is Overflow it stays so, whatever the client reads and however far a flush has come,
  // until one of those steps: a new write returns at once with its chunk dropped, and nothing gets into the
  // queue but the chunk of the write that had passed its test before.
  lemma {:induction false} LatchHolds(c: Config, s: State, es: seq<Event>, chunk: seq<Byte>)
    requires ValidConfig(c) && s.status.Overflow? && NeverReleased(c, s, es)
    ensures var t := Run(c, s, es);
            && t.status.Overflow? && Next(c, t, Write(chunk)) == t
            && s.accepted <= t.accepted <= s.accepted + UnderWay(s)
            && (t.writer.Passed? ==> t.accepted == s.accepted && t.writer == s.writer)
    decreases |es|
  {
    if es == [] {
    } else {
      OverflowEndsExactly(c, s, es[0]);
      LatchHolds(c, Next(c, s, es[0]), es[1..], chunk);
      UnderWayShrinks(c, s, es[0]);
    }
  }

  lemma UnderWayShrinks(c: Config, s: State, e: Event)
    requires s.status.Overflow?
    ensures var t := Next(c, s, e);
            && s.accepted <= t.accepted && t.accepted + UnderWay(t) <= s.accepted + UnderWay(s)
            && (t.writer.Passed? ==> t.accepted == s.accepted && t.writer == s.writer)
  {
    assert s.accepted + [] == s.accepted;
  }

  // A write under way is queued exactly if its chunk fits when the queue write comes, after whatever the
  // client and a flush have taken.
  lemma {:induction false} UnderWayExactly(c: Config, s: State, es: seq<Event>)
    requires ValidConfig(c) && s.status.Overflow? && s.writer.Passed? && NeverReleased(c, s, es)
    ensures var t := Run(c, s, es);
            t.writer.Passed? ==>
              Next(c, t, WriteQueue).accepted ==
              s.accepted + if Fits(c, t, s.writer.chunk) then [s.writer.chunk] else []
  {
    LatchHolds(c, s, es, []);
    var t := Run(c, s, es);
    if t.writer.Passed? {
      QueueWriteExactly(c, t);
    }
  }

  // With no check outstanding, that is: until a flush has drained the queue or recording starts again.
  predicate NeverReset(c: Config, s: State, es: seq<Event>)
    decreases |es|
  {
    es == [] ||
    (!(es[0].Start? && c.callback && c.configured) && !(es[0].FlushStep? && s.flusher == Draining(0)) &&
     NeverReset(c, Next(c, s, es[0]), es[1..]))
  }

  lemma {:induction false} SettledLatchHolds(c: Config, s: State, es: seq<Event>)
    requires ValidConfig(c) && s.status.Overflow? && s.writer.Away? && !s.flusher.Resetting? && NeverReset(c, s, es)
    ensures NeverReleased(c, s, es)
    decreases |es|
  {
    if es == [] {
    } else {
      SettledLatchHolds(c, Next(c, s, es[0]), es[1..]);
    }
  }

  // A write that nothing interrupts, and what it returns.
  function WriteAlone(c: Config, s: State, chunk: seq<Byte>): (State, bool) {
    (DoCheck(c, DoQueue(c, DoTest(s, chunk))), s.status.Overflow? || Fits(c, s, chunk))
  }

  lemma {:induction false} WriteAloneIsRun(c: Config, s: State, chunk: seq<Byte>)
    requires s.writer.Away?
    ensures WriteAlone(c, s, chunk).0 == Run(c, s, [Write(chunk), WriteQueue, WriteCheck])
  {
    assert [Write(chunk), WriteQueue, WriteCheck][1..] == [WriteQueue, WriteCheck];
    assert [WriteQueue, WriteCheck][1..] == [WriteCheck] && [WriteCheck][1..] == [];
    var t := Next(c, s, Write(chunk));
    var u := Next(c, t, WriteQueue);
    assert Run(c, t, [WriteQueue, WriteCheck]) == Run(c, u, [WriteCheck]) == Run(c, Next(c, u, WriteCheck), []);
  }

  // It succeeds exactly if the latch is set or the chunk fits, and drops the chunk in the first case.
  lemma WriteExactly(c: Config, s: State, chunk: seq<Byte>)
    requires s.writer.Away?
    ensures var (t, ok) := WriteAlone(c, s, chunk);
            && t.writer.Away? && (ok <==> s.status.Overflow? || |s.queue| + |chunk| <= c.capacity)
            && t.queue == s.queue + (if ok && !s.status.Overflow? then chunk else [])
            && (s.status.Overflow? ==> t == s)
  {
    assert s.queue + [] == s.queue;
    if !s.status.Overflow? {
      QueueWriteExactly(c, DoTest(s, chunk));
    }
  }

  // ---------- a flush by itself ----------

  function DrainAll(c: Config, s: State, left: nat): State
    requires ValidConfig(c)
    decreases left
  {
    if left == 0 then s
    else
      var n := if left > c.unit then c.unit else left;
      DrainAll(c, Take(s, n, true), left - n)
  }

  function FlushAlone(c: Config, s: State): State
    requires ValidConfig(c)
  {
    Notify(c, DrainAll(c, s, |s.queue|).(status := DataReady))
  }

  // Without anything in between, a flush empties the queue and releases the latch.
  lemma {:induction false} DrainEmpties(c: Config, s: State, left: nat)
    requires ValidConfig(c) && left <= |s.queue|
    ensures var t := DrainAll(c, s, left);
            t == s.(queue := s.queue[left..], taken := t.taken)
    decreases left
  {
    if left == 0 {
    } else {
      var n := if left > c.unit then c.unit else left;
      DrainEmpties(c, Take(s, n, true), left - n);
      assert s.queue[n..][left - n..] == s.queue[left..];
    }
  }

  lemma FlushAloneEmpties(c: Config, s: State)
    requires ValidConfig(c)
    ensures var t := FlushAlone(c, s);
            t.queue == [] && t.accepted == s.accepted && t.flusher == s.flusher && !t.status.Overflow?
  {
    DrainEmpties(c, s, |s.queue|);
  }

  // It is the run of its own steps.
  lemma {:induction false} DrainIsRun(c: Config, s: State, left: nat) returns (n: nat)
    requires ValidConfig(c) && s.flusher.Idle?
    ensures Run(c, s.(flusher := Draining(left)), seq(n, _ => FlushStep)) ==
            Notify(c, DrainAll(c, s, left).(status := DataReady, flusher := Idle))
    decreases left
  {
    var begun := s.(flusher := Draining(left));
    if left == 0 {
      n := 2;
      var reset := DoFlush(c, begun);
      assert seq(2, _ => FlushStep) == [FlushStep, FlushStep];
      assert [FlushStep, FlushStep][1..] == [FlushStep] && [FlushStep][1..] == [];
      assert Run(c, reset, [FlushStep]) == Run(c, DoFlush(c, reset), []);
    } else {
      var k := if left > c.unit then c.unit else left;
      var rest := DrainIsRun(c, Take(s, k, true), left - k);
      n := rest + 1;
      assert seq(n, _ => FlushStep)[0] == FlushStep && seq(n, _ => FlushStep)[1..] == seq(rest, _ => FlushStep);
      assert DoFlush(c, begun) == Take(s, k, true).(flusher := Draining(left - k));
    }
  }

  lemma {:induction false} RunConcat(c: Config, s: State, a: seq<Event>, b: seq<Event>)
    ensures Run(c, s, a + b) == Run(c, Run(c, s, a), b)
    decreases |a|
  {
    if a == [] {
      assert a + b == b;
    } else {
      assert (a + b)[1..] == a[1..] + b;
      RunConcat(c, Next(c, s, a[0]), a[1..], b);
    }
  }

  // So an uninterrupted flush is a run of the machine.
  lemma FlushAloneIsRun(c: Config, s: State) returns (n: nat)
    requires ValidConfig(c) && s.flusher.Idle?
    ensures Run(c, s, [FlushBegin] + seq(n, _ => FlushStep)) == FlushAlone(c, s)
  {
    n := DrainIsRun(c, s, |s.queue|);
    RunConcat(c, s, [FlushBegin], seq(n, _ => FlushStep));
    assert [FlushBegin][1..] == [] && Run(c, s, [FlushBegin]) == Run(c, Next(c, s, FlushBegin), []);
    DrainEmpties(c, s, |s.queue|);
  }

  // ---------- the DVR ----------

  class Dvr {
    const config: Config
    var queue: seq<Byte>
    var recordStatus: Status
    ghost var accepted: seq<seq<Byte>>
    ghost var taken: seq<Taken>

    ghost function S(): State
      reads this
    {
      State(queue, recordStatus, Away, Idle, accepted, taken)
    }

    constructor (c: Config)
      requires ValidConfig(c)
      ensures config == c && S() == State([], DataReady, Away, Idle, [], []) && Inv(c, S())
    {
      config := c;
      queue, recordStatus, accepted, taken := [], DataReady, [], [];
    }

    method MaySendRecordStatusCallback()
      modifies this`recordStatus
      ensures S() == Notify(config, old(S()))
    {
      var newStatus := recordStatus;
      if |queue| >= config.capacity {
        newStatus := Overflow;
      } else if |queue| > config.high {
        newStatus := HighWater;
      } else if |queue| < config.low {
        newStatus := LowWater;
      }
      if recordStatus != newStatus {
        if config.callback {
          recordStatus := newStatus;
        }
      }
    }

    method WriteRecordFMQ(data: seq<Byte>) returns (ok: bool)
      modifies this
      ensures (S(), ok) == WriteAlone(config, old(S()), data)
    {
      if recordStatus.Overflow? {
        return true;
      }
      if |queue| + |data| <= config.capacity {
        queue, accepted := queue + data, accepted + [data];
        MaySendRecordStatusCallback();
        return true;
      }
      MaySendRecordStatusCallback();
      return false;
    }

    method Start() returns (ok: bool)
      modifies this`recordStatus
      ensures S() == Next(config, old(S()), Event.Start) && ok == (config.callback && config.configured)
    {
      if !config.callback || !config.configured {
        return false;
      }
      recordStatus := DataReady;
      return true;
    }

    method ReadQueue(n: nat)
      modifies this`queue, this`taken
      ensures S() == Take(old(S()), n, true)
    {
      if 0 < n <= |queue| {
        taken := taken + [ByFlush(queue[..n])];
        queue := queue[n..];
      }
    }

    method Flush()
      requires ValidConfig(config)
      modifies this
      ensures S() == FlushAlone(config, old(S()))
    {
      ghost var drained := DrainAll(config, S(), |queue|);
      var left := |queue|;
      while left > 0
        invariant left >= 0 && DrainAll(config, S(), left) == drained
        decreases left
      {
        if left > config.unit {
          ReadQueue(config.unit);
          left := left - config.unit;
        } else {
          ReadQueue(left);
          left := 0;
        }
      }
      recordStatus := DataReady;
      MaySendRecordStatusCallback();
    }
  }
}
