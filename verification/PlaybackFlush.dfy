/**
 The playback reader and `flush()` of the aidl DVR, sharing a byte queue, the read mutex and the
 `mFlushing` flag with a producer in another process. Every atomic action is one `Event`, so a run is
 a sequence of events and every interleaving is some sequence.
 */
module PlaybackFlush {

  type Byte = x: int | -128 <= x < 128

  // Bytes that left the queue: dispatched to the demux, or thrown away by a flush.
  datatype Chunk = Chunk(bytes: seq<Byte>, flushed: bool)

  // Where the thread that holds the read mutex is.
  // The two guards load two flags each, one after the other.
  datatype ReaderPc =
    | RSize | RGuard | RGuardRun | RRead | RDispatch
    | RTailGuard | RTailGuardRun | RTailRead | RTailDispatch | RUnlock
  datatype FlusherPc = FSize | FLoop | FLower | FUnlock
  datatype Holder =
    | Free
    | Reading(rpc: ReaderPc, size: nat, tmpSize: nat)
    | Flushing(fpc: FlusherPc, left: nat, atLock: nat)

  datatype State = State(
    queue: seq<Byte>, flag: bool, running: bool, holder: Holder,
    pending: nat,          // flushes that have raised the flag and wait for the mutex
    hand: seq<Byte>,       // the reader's buffer between read and dispatch
    log: seq<Chunk>, produced: seq<Byte>, readFailed: bool)

  datatype Event =
    | Produce(bytes: seq<Byte>)
    | Start
    | Stop
    | ReaderLock
    | RaiseFlag
    | FlusherLock
    | Advance              // the holder of the mutex takes its next action

  function Initial(): State {
    State([], false, false, Free, 0, [], [], [], false)
  }

  function Concat(log: seq<Chunk>): seq<Byte> {
    if log == [] then [] else Concat(log[..|log| - 1]) + log[|log| - 1].bytes
  }

  function AdvanceReader(s: State, packet: nat): State
    requires s.holder.Reading? && packet > 0
  {
    var Reading(pc, size, tmpSize) := s.holder;
    match pc
    case RSize => s.(holder := Reading(RGuard, |s.queue|, 0))
    case RGuard =>
      s.(holder := Reading(if !s.flag then RGuardRun else RTailGuard, size, tmpSize))
    case RGuardRun =>
      // `i < size / packet` with `tmpSize == i * packet`.
      s.(holder := Reading(if s.running && tmpSize + packet <= size then RRead else RTailGuard, size, tmpSize))
    case RRead =>
      if |s.queue| < packet then s.(holder := Free, readFailed := true)
      else s.(hand := s.queue[..packet], queue := s.queue[packet..], holder := Reading(RDispatch, size, tmpSize))
    case RDispatch =>
      s.(log := s.log + [Chunk(s.hand, false)], hand := [], holder := Reading(RGuard, size, tmpSize + packet))
    case RTailGuard =>
      s.(holder := Reading(if size > tmpSize && !s.flag then RTailGuardRun else RUnlock, size, tmpSize))
    case RTailGuardRun => s.(holder := Reading(if s.running then RTailRead else RUnlock, size, tmpSize))
    case RTailRead =>
      if size < tmpSize || |s.queue| < size - tmpSize then s.(holder := Free, readFailed := true)
      else s.(hand := s.queue[..size - tmpSize], queue := s.queue[size - tmpSize..],
              holder := Reading(RTailDispatch, size, tmpSize))
    case RTailDispatch =>
      s.(log := s.log + [Chunk(s.hand, false)], hand := [], holder := Reading(RUnlock, size, tmpSize))
    case RUnlock => s.(holder := Free)
  }

  function AdvanceFlusher(s: State, packet: nat): State
    requires s.holder.Flushing? && packet > 0
  {
    var Flushing(pc, left, atLock) := s.holder;
    match pc
    case FSize => s.(holder := Flushing(FLoop, |s.queue|, atLock))
    case FLoop =>
      var n := if left > packet then packet else left;
      if left == 0 then s.(holder := Flushing(FLower, 0, atLock))
      else if |s.queue| < n then s.(holder := Flushing(FLoop, left - n, atLock), readFailed := true)
      else s.(log := s.log + [Chunk(s.queue[..n], true)], queue := s.queue[n..],
              holder := Flushing(FLoop, left - n, atLock))
    case FLower => s.(flag := false, holder := Flushing(FUnlock, left, atLock))
    case FUnlock => s.(holder := Free)
  }

  // One action; an action that is not enabled leaves the state as it is. `packet` is the injection
  // unit, a hundred playback packets.
  function Next(s: State, e: Event, packet: nat): State
    requires packet > 0
  {
    match e
    case Produce(bytes) => s.(queue := s.queue + bytes, produced := s.produced + bytes)
    case Start => s.(running := true)
    case Stop => s.(running := false)
    case ReaderLock => if s.holder.Free? then s.(holder := Reading(RSize, 0, 0)) else s
    case RaiseFlag => s.(flag := true, pending := s.pending + 1)
    case FlusherLock =>
      if s.holder.Free? && s.pending > 0
      then s.(pending := s.pending - 1, holder := Flushing(FSize, 0, |s.produced|))
      else s
    case Advance =>
      match s.holder
      case Free => s
      case Reading(_, _, _) => AdvanceReader(s, packet)
      case Flushing(_, _, _) => AdvanceFlusher(s, packet)
  }

  function Run(s: State, es: seq<Event>, packet: nat): State
    requires packet > 0
  {
    if es == [] then s else Next(Run(s, es[..|es| - 1], packet), es[|es| - 1], packet)
  }

  // ---------- the invariant ----------

  predicate ReaderOk(s: State, packet: nat)
    requires s.holder.Reading?
  {
    var Reading(pc, size, tmpSize) := s.holder;
    && (pc.RDispatch? || pc.RTailDispatch? <==> s.hand != [])
    && (!pc.RSize? && !pc.RUnlock? ==> tmpSize <= size && size - tmpSize <= |s.queue| + |s.hand|)
    && (pc.RRead? ==> tmpSize + packet <= size)
    && (pc.RDispatch? ==> tmpSize + packet <= size && |s.hand| == packet)
    && (pc.RTailGuardRun? || pc.RTailRead? ==> 0 < size - tmpSize)
    && (pc.RTailDispatch? ==> |s.hand| == size - tmpSize)
  }

  predicate FlusherOk(s: State)
    requires s.holder.Flushing?
  {
    var Flushing(pc, left, atLock) := s.holder;
    && s.hand == [] && atLock <= |s.produced|
    && (pc.FLoop? ==> left <= |s.queue| && atLock <= |Concat(s.log)| + left)
    && (pc.FLower? || pc.FUnlock? ==> atLock <= |Concat(s.log)|)
  }

  // A flush never takes more than a unit at once. What is dispatched can be more; see below.
  predicate ChunkOk(c: Chunk, packet: nat) {
    0 < |c.bytes| && (c.flushed ==> |c.bytes| <= packet)
  }

  // Nothing is lost, duplicated or reordered between the producer and the log.
  predicate Conserved(s: State) {
    (Concat(s.log) + s.hand) + s.queue == s.produced
  }

  predicate Shape(s: State, packet: nat) {
    && !s.readFailed
    && (s.holder.Free? ==> s.hand == [])
    && (s.holder.Reading? ==> ReaderOk(s, packet))
    && (s.holder.Flushing? ==> FlusherOk(s))
    && (s.flag ==> s.pending > 0 || (s.holder.Flushing? && !s.holder.fpc.FUnlock?))
    && forall k :: 0 <= k < |s.log| ==> ChunkOk(s.log[k], packet)
  }

  predicate Inv(s: State, packet: nat) {
    Conserved(s) && Shape(s, packet)
  }

  lemma {:induction false} ConcatAppend(log: seq<Chunk>, c: Chunk)
    ensures Concat(log + [c]) == Concat(log) + c.bytes
  {
  }

  lemma Take(log: seq<Byte>, queue: seq<Byte>, produced: seq<Byte>, n: nat)
    requires (log + []) + queue == produced && n <= |queue|
    ensures (log + queue[..n]) + queue[n..] == produced
    ensures ((log + queue[..n]) + []) + queue[n..] == produced
  {
  }

  lemma ReaderConserves(s: State, packet: nat)
    requires Inv(s, packet) && s.holder.Reading? && packet > 0
    ensures Conserved(AdvanceReader(s, packet))
  {
    match s.holder.rpc {
      case RDispatch =>
        ConcatAppend(s.log, Chunk(s.hand, false));
        assert (Concat(s.log) + s.hand) + [] == Concat(s.log) + s.hand;
      case RTailDispatch =>
        ConcatAppend(s.log, Chunk(s.hand, false));
        assert (Concat(s.log) + s.hand) + [] == Concat(s.log) + s.hand;
      case RRead => Take(Concat(s.log), s.queue, s.produced, packet);
      case RTailRead => Take(Concat(s.log), s.queue, s.produced, s.holder.size - s.holder.tmpSize);
      case _ =>
    }
  }

  lemma ReaderKeeps(s: State, packet: nat)
    requires Shape(s, packet) && s.holder.Reading? && packet > 0
    ensures Shape(AdvanceReader(s, packet), packet)
  {
    match s.holder.rpc {
      case RSize =>
      case RGuard =>
      case RGuardRun =>
      case RRead =>
      case RDispatch =>
      case RTailGuard =>
      case RTailGuardRun =>
      case RTailRead =>
      case RTailDispatch =>
      case RUnlock =>
    }
  }

  lemma FlusherConserves(s: State, packet: nat)
    requires Inv(s, packet) && s.holder.Flushing? && packet > 0
    ensures Conserved(AdvanceFlusher(s, packet))
  {
    var left := s.holder.left;
    if s.holder.fpc.FLoop? && left > 0 {
      var n := if left > packet then packet else left;
      ConcatAppend(s.log, Chunk(s.queue[..n], true));
      Take(Concat(s.log), s.queue, s.produced, n);
    }
  }

  lemma FlusherKeeps(s: State, packet: nat)
    requires Shape(s, packet) && s.holder.Flushing? && packet > 0
    requires |s.produced| == |Concat(s.log)| + |s.queue|
    ensures Shape(AdvanceFlusher(s, packet), packet)
  {
    match s.holder.fpc {
      case FLoop =>
        if s.holder.left > 0 {
          var n := if s.holder.left > packet then packet else s.holder.left;
          var c := Chunk(s.queue[..n], true);
          ConcatAppend(s.log, c);
          assert |Concat(s.log + [c])| == |Concat(s.log)| + n && ChunkOk(c, packet);
        }
      case _ =>
    }
  }

  lemma NextKeeps(s: State, e: Event, packet: nat)
    requires Inv(s, packet) && packet > 0
    ensures Inv(Next(s, e, packet), packet)
  {
    match e {
      case Advance =>
        if s.holder.Reading? {
          ReaderConserves(s, packet);
          ReaderKeeps(s, packet);
        } else if s.holder.Flushing? {
          FlusherConserves(s, packet);
          assert |s.produced| == |Concat(s.log) + s.hand| + |s.queue|;
          FlusherKeeps(s, packet);
        }
      case Produce(bytes) =>
        assert (Concat(s.log) + s.hand) + (s.queue + bytes) == ((Concat(s.log) + s.hand) + s.queue) + bytes;
      case _ =>
    }
  }

  // ---------- the theorems, over every interleaving ----------

  // Conservation, no failed read, and no empty chunk, in every run.
  lemma {:induction false} RunKeeps(es: seq<Event>, packet: nat)
    requires packet > 0
    ensures Inv(Run(Initial(), es, packet), packet)
  {
    if es == [] {
    } else {
      RunKeeps(es[..|es| - 1], packet);
      NextKeeps(Run(Initial(), es[..|es| - 1], packet), es[|es| - 1], packet);
    }
  }

  // ---------- what the holder of the mutex does next ----------

  // How many bytes it is about to read.
  function Wants(s: State, packet: nat): nat {
    match s.holder
    case Reading(RRead, _, _) => packet
    case Reading(RTailRead, size, tmpSize) => if size > tmpSize then size - tmpSize else 0
    case Flushing(FLoop, left, _) => if left > packet then packet else left
    case _ => 0
  }

  // A read fails exactly when the queue has fewer bytes than it asks for; by `RunKeeps` none ever does.
  lemma ReadFailsExactly(s: State, e: Event, packet: nat)
    requires packet > 0 && (s.holder.Reading? ==> s.holder.tmpSize <= s.holder.size)
    ensures Next(s, e, packet).readFailed <==> s.readFailed || (e.Advance? && |s.queue| < Wants(s, packet))
    ensures e.Advance? && |s.queue| < Wants(s, packet) ==>
              Next(s, e, packet).queue == s.queue && Next(s, e, packet).log == s.log &&
              (s.holder.Reading? ==> Next(s, e, packet).holder.Free?)
  {
  }

  // The reader goes on with a whole unit exactly if it finds itself running and a unit left; the mutex goes to a
  // reader or to a waiting flush exactly if it is free.
  lemma TakesMutexExactly(s: State, packet: nat)
    requires packet > 0
    ensures var r, f := Next(s, ReaderLock, packet), Next(s, FlusherLock, packet);
            && r == (if s.holder.Free? then s.(holder := Reading(RSize, 0, 0)) else s)
            && (s.holder.Free? && s.pending > 0 ==> f.holder.Flushing? && f.pending == s.pending - 1)
            && (!(s.holder.Free? && s.pending > 0) ==> f == s)
    ensures s.holder.Reading? && s.holder.rpc.RGuardRun? ==>
              (Next(s, Advance, packet).holder.rpc.RRead? <==>
               s.running && s.holder.size - s.holder.tmpSize >= packet)
  {
  }

  // A reader at a guard that finds the flag raised is on its way out.
  predicate Leaving(s: State) {
    s.flag && s.holder.Reading? && (s.holder.rpc.RGuard? || s.holder.rpc.RTailGuard? || s.holder.rpc.RUnlock?)
  }

  lemma LeavingStep(s: State, e: Event, packet: nat)
    requires Leaving(s) && packet > 0
    ensures var t := Next(s, e, packet);
            (Leaving(t) || t.holder.Free?) && t.log == s.log && t.hand == s.hand && s.queue <= t.queue
  {
  }

  // Once a flush has raised its flag, a reader at a guard takes nothing more until it lets go of the mutex, whatever
  // the others do.
  lemma {:induction false} FlagStopsReader(s: State, es: seq<Event>, packet: nat)
    requires Leaving(s) && packet > 0
    requires forall i :: 0 <= i <= |es| ==> !Run(s, es[..i], packet).holder.Free?
    ensures Leaving(Run(s, es, packet)) && Run(s, es, packet).log == s.log && s.queue <= Run(s, es, packet).queue
    decreases |es|
  {
    if es == [] {
    } else {
      var before := es[..|es| - 1];
      forall i | 0 <= i <= |before| ensures !Run(s, before[..i], packet).holder.Free? {
        assert before[..i] == es[..i];
      }
      FlagStopsReader(s, before, packet);
      LeavingStep(Run(s, before, packet), es[|es| - 1], packet);
      assert es[..|es|] == es;
    }
  }

  // How many more actions a reader takes at most.
  function ReaderSteps(s: State): nat
    requires s.holder.Reading? && (s.holder.rpc.RSize? || s.holder.tmpSize <= s.holder.size || s.holder.rpc.RUnlock?)
  {
    var Reading(pc, size, tmpSize) := s.holder;
    match pc
    case RSize => 4 * |s.queue| + 9
    case RGuard => 4 * (size - tmpSize) + 8
    case RGuardRun => 4 * (size - tmpSize) + 7
    case RRead => 4 * (size - tmpSize) + 6
    case RDispatch => 4 * (size - tmpSize) + 5
    case RTailGuard => 5
    case RTailGuardRun => 4
    case RTailRead => 3
    case RTailDispatch => 2
    case RUnlock => 1
  }

  lemma ReaderStep(s: State, packet: nat)
    requires Inv(s, packet) && packet > 0 && s.holder.Reading?
    ensures var t := Next(s, Advance, packet);
            t.holder.Free? || (t.holder.Reading? && ReaderOk(t, packet) && ReaderSteps(t) < ReaderSteps(s))
  {
    ReaderKeeps(s, packet);
    match s.holder.rpc {
      case RSize =>
      case RGuard =>
      case RGuardRun =>
      case RRead =>
      case RDispatch =>
      case RTailGuard =>
      case RTailGuardRun =>
      case RTailRead =>
      case RTailDispatch =>
      case RUnlock =>
    }
  }

  // A reader that holds the mutex lets go of it after a bounded number of its own actions.
  lemma {:induction false} ReaderEnds(s: State, packet: nat) returns (n: nat)
    requires Inv(s, packet) && packet > 0 && s.holder.Reading?
    ensures n <= ReaderSteps(s)
    ensures var t := Run(s, seq(n, _ => Advance), packet); t.holder.Free? && Inv(t, packet)
    decreases ReaderSteps(s)
  {
    var t := Next(s, Advance, packet);
    NextKeeps(s, Advance, packet);
    ReaderStep(s, packet);
    var rest := 0;
    if t.holder.Reading? {
      rest := ReaderEnds(t, packet);
    }
    n := rest + 1;
    RunFirst(s, seq(rest, _ => Advance), packet);
    assert seq(n, _ => Advance) == [Advance] + seq(rest, _ => Advance);
  }

  // ---------- how large a dispatched chunk is ----------

  // The reader has left its loop with more than a unit to go, and a start would let it take that as its tail:
  // `mFlushing` is not raised, or has been loaded already.
  predicate BehindLoop(s: State, packet: nat) {
    && s.holder.Reading? && s.holder.size > s.holder.tmpSize + packet
    && ((s.holder.rpc.RTailGuard? && !s.flag) || s.holder.rpc.RTailGuardRun?)
  }

  // It is about to do so.
  predicate Late(s: State, packet: nat) {
    s.running && BehindLoop(s, packet)
  }

  // An action that leaves it so: no stop, no flush that raises its flag before the reader loads that, and no
  // load of `mDvrThreadRunning`, with which the reader goes on.
  predicate Keeps(s: State, e: Event)
    requires s.holder.Reading?
  {
    && !e.Stop? && (e.RaiseFlag? ==> s.holder.rpc.RTailGuardRun?)
    && (e.Advance? ==> s.holder.rpc.RTailGuard?)
  }

  // That begins exactly when the thread is started there. A reader that left its loop because a flush had
  // raised the flag never gets there, as the flag stays up until the reader lets go of the mutex.
  lemma LateExactly(s: State, e: Event, packet: nat)
    requires Inv(s, packet) && packet > 0
    ensures Late(Next(s, e, packet), packet) <==>
      (Late(s, packet) && Keeps(s, e)) || (e.Start? && BehindLoop(s, packet))
  {
    if e.Advance? && s.holder.Reading? {
      LateAdvance(s, packet);
    }
  }

  lemma LateAdvance(s: State, packet: nat)
    requires Inv(s, packet) && packet > 0 && s.holder.Reading?
    ensures Late(AdvanceReader(s, packet), packet) <==> Late(s, packet) && s.holder.rpc.RTailGuard?
  {
    match s.holder.rpc {
      case RSize =>
      case RGuard =>
      case RGuardRun =>
      case RRead =>
      case RDispatch =>
      case RTailGuard =>
      case RTailGuardRun =>
      case RTailRead =>
      case RTailDispatch =>
      case RUnlock =>
    }
  }

  // Action `j` of a run is such a start.
  predicate StartsLate(es: seq<Event>, j: nat, packet: nat)
    requires packet > 0 && j < |es|
  {
    es[j].Start? && BehindLoop(Run(Initial(), es[..j], packet), packet)
  }

  predicate KeepsLate(es: seq<Event>, i: nat, packet: nat)
    requires packet > 0 && i < |es|
  {
    var s := Run(Initial(), es[..i], packet);
    s.holder.Reading? && Keeps(s, es[i])
  }

  predicate LateSince(es: seq<Event>, packet: nat)
    requires packet > 0
  {
    exists j :: 0 <= j < |es| && StartsLate(es, j, packet) && forall i :: j < i < |es| ==> KeepsLate(es, i, packet)
  }

  // In every run the reader is late exactly if it was started so and nothing has ended that since.
  lemma {:induction false} LateMeansStarted(es: seq<Event>, packet: nat)
    requires packet > 0
    ensures Late(Run(Initial(), es, packet), packet) <==> LateSince(es, packet)
  {
    if es == [] {
    } else {
      var before, n := es[..|es| - 1], |es| - 1;
      LateMeansStarted(before, packet);
      RunKeeps(before, packet);
      LateExactly(Run(Initial(), before, packet), es[n], packet);
      assert before + [es[n]] == es && es[..n] == before;
      SinceOneMore(before, es[n], packet);
    }
  }

  lemma SinceOneMore(es: seq<Event>, e: Event, packet: nat)
    requires packet > 0
    ensures LateSince(es + [e], packet) <==>
      (LateSince(es, packet) && KeepsLate(es + [e], |es|, packet)) || StartsLate(es + [e], |es|, packet)
  {
    var more := es + [e];
    forall j | 0 <= j < |es|
      ensures StartsLate(more, j, packet) <==> StartsLate(es, j, packet)
      ensures KeepsLate(more, j, packet) <==> KeepsLate(es, j, packet)
    {
      assert more[..j] == es[..j];
    }
    if LateSince(more, packet) {
      var j :| 0 <= j < |more| && StartsLate(more, j, packet) &&
               forall i :: j < i < |more| ==> KeepsLate(more, i, packet);
      assert j < |es| ==> KeepsLate(more, |es|, packet) && forall i :: j < i < |es| ==> KeepsLate(es, i, packet);
    }
  }

  // Action `m` of a run is the second load of the tail guard after such a start, with `k` chunks in the log.
  predicate PassesLate(es: seq<Event>, m: nat, packet: nat, k: nat)
    requires packet > 0 && m < |es|
  {
    var s := Run(Initial(), es[..m], packet);
    && es[m].Advance? && LateSince(es[..m], packet)
    && s.holder.Reading? && s.holder.rpc.RTailGuardRun? && |s.log| == k
  }

  predicate PassedLate(es: seq<Event>, packet: nat, k: nat)
    requires packet > 0
  {
    exists m :: 0 <= m < |es| && PassesLate(es, m, packet, k)
  }

  predicate Oversize(c: Chunk, packet: nat) {
    !c.flushed && |c.bytes| > packet
  }

  // What the past says about chunk `k`, which may be yet to come.
  predicate Tracked(s: State, packet: nat, k: nat, passed: bool) {
    passed <==>
      if k < |s.log| then Oversize(s.log[k], packet)
      else
        k == |s.log| && s.holder.Reading? && (s.holder.rpc.RTailRead? || s.holder.rpc.RTailDispatch?) &&
        s.holder.size > s.holder.tmpSize + packet
  }

  // The reader's next action takes it past its tail guard when late, with `k` chunks in the log.
  predicate Passes(s: State, packet: nat, k: nat) {
    Late(s, packet) && s.holder.rpc.RTailGuardRun? && |s.log| == k
  }

  lemma ReaderTracks(s: State, packet: nat, k: nat, passed: bool)
    requires Inv(s, packet) && packet > 0 && Tracked(s, packet, k, passed) && s.holder.Reading?
    ensures Tracked(AdvanceReader(s, packet), packet, k, passed || Passes(s, packet, k))
  {
    match s.holder.rpc {
      case RSize =>
      case RGuard =>
      case RGuardRun =>
      case RRead =>
      case RDispatch =>
      case RTailGuard =>
      case RTailGuardRun =>
      case RTailRead =>
      case RTailDispatch =>
      case RUnlock =>
    }
  }

  lemma NextTracks(s: State, e: Event, packet: nat, k: nat, passed: bool)
    requires Inv(s, packet) && packet > 0 && Tracked(s, packet, k, passed)
    ensures Tracked(Next(s, e, packet), packet, k, passed || (e.Advance? && Passes(s, packet, k)))
  {
    if e.Advance? && s.holder.Reading? {
      ReaderTracks(s, packet, k, passed);
    }
  }

  lemma {:induction false} PassedOneMore(es: seq<Event>, e: Event, packet: nat, k: nat)
    requires packet > 0
    ensures PassedLate(es + [e], packet, k) <==>
      PassedLate(es, packet, k) || (e.Advance? && Passes(Run(Initial(), es, packet), packet, k))
  {
    var more := es + [e];
    forall m | 0 <= m < |es| ensures PassesLate(more, m, packet, k) <==> PassesLate(es, m, packet, k) {
      assert more[..m] == es[..m];
    }
    assert more[..|es|] == es;
    LateMeansStarted(es, packet);
    assert PassedLate(more, packet, k) <==> PassedLate(es, packet, k) || PassesLate(more, |es|, packet, k);
  }

  lemma {:induction false} RunTracks(es: seq<Event>, packet: nat, k: nat)
    requires packet > 0
    ensures Tracked(Run(Initial(), es, packet), packet, k, PassedLate(es, packet, k))
  {
    if es == [] {
    } else {
      var before, e := es[..|es| - 1], es[|es| - 1];
      var s := Run(Initial(), before, packet);
      RunTracks(before, packet, k);
      RunKeeps(before, packet);
      NextTracks(s, e, packet, k, PassedLate(before, packet, k));
      assert before + [e] == es;
      PassedOneMore(before, e, packet, k);
    }
  }

  // In every run, a dispatched chunk is larger than a unit exactly if the thread was started behind the loop of
  // its read with more than a unit left, before the second load of the tail guard, and nothing ended that.
  lemma {:induction false} OversizeExactly(es: seq<Event>, packet: nat, k: nat)
    requires packet > 0 && k < |Run(Initial(), es, packet).log|
    ensures Oversize(Run(Initial(), es, packet).log[k], packet) <==> PassedLate(es, packet, k)
  {
    RunTracks(es, packet, k);
  }

  // If no start falls behind a loop that was left with more than a unit to go, no chunk is larger than a unit.
  lemma {:induction false} StartsInTimeSizes(es: seq<Event>, packet: nat, k: nat)
    requires packet > 0 && forall j :: 0 <= j < |es| ==> !StartsLate(es, j, packet)
    requires k < |Run(Initial(), es, packet).log|
    ensures 0 < |Run(Initial(), es, packet).log[k].bytes| <= packet
  {
    OversizeExactly(es, packet, k);
    RunKeeps(es, packet);
    forall m | 0 <= m < |es| ensures !PassesLate(es, m, packet, k) {
      PrefixNotLate(es, m, packet);
    }
  }

  lemma PrefixNotLate(es: seq<Event>, m: nat, packet: nat)
    requires packet > 0 && m <= |es| && forall j :: 0 <= j < |es| ==> !StartsLate(es, j, packet)
    ensures !LateSince(es[..m], packet)
  {
    forall j | 0 <= j < m ensures !StartsLate(es[..m], j, packet) {
      assert es[..m][..j] == es[..j] && es[..m][j] == es[j];
      assert !StartsLate(es, j, packet);
    }
  }

  // A late start: everything in the queue is dispatched as one tail, however much it is.
  lemma {:induction false} LateStartDispatchesAll(bytes: seq<Byte>, packet: nat)
    requires packet > 0 && |bytes| > packet
    ensures var es := BehindLoopRun(bytes) + [Start] + [Advance] + [Advance] + [Advance] + [Advance];
            Run(Initial(), es, packet).log == [Chunk(bytes, false)]
  {
    var es := BehindLoopRun(bytes);
    ReachesTail(bytes, packet);
    RunOneMore(Initial(), es, Start, packet);
    RunOneMore(Initial(), es + [Start], Advance, packet);
    TailTakesAll(es + [Start] + [Advance], Run(Initial(), es + [Start] + [Advance], packet), bytes, packet);
  }

  // The same when a flush and then a start come between the two loads of the tail guard: the flag is up, and
  // everything is dispatched while the flush waits for the mutex.
  lemma {:induction false} FlushAndStartDispatchesAll(bytes: seq<Byte>, packet: nat)
    requires packet > 0 && |bytes| > packet
    ensures var es := BehindLoopRun(bytes) + [Advance] + [RaiseFlag] + [Start] + [Advance] + [Advance] + [Advance];
            var s := Run(Initial(), es, packet);
            s.log == [Chunk(bytes, false)] && s.flag && s.pending == 1
  {
    var es := BehindLoopRun(bytes);
    ReachesTail(bytes, packet);
    RunOneMore(Initial(), es, Advance, packet);
    RunOneMore(Initial(), es + [Advance], RaiseFlag, packet);
    RunOneMore(Initial(), es + [Advance] + [RaiseFlag], Start, packet);
    var before := es + [Advance] + [RaiseFlag] + [Start];
    TailTakesAll(before, Run(Initial(), before, packet), bytes, packet);
  }

  // A read while the thread does not run: the reader leaves its loop with everything to go.
  function BehindLoopRun(bytes: seq<Byte>): seq<Event> {
    [Produce(bytes)] + [ReaderLock] + [Advance] + [Advance] + [Advance]
  }

  lemma {:induction false} ReachesTail(bytes: seq<Byte>, packet: nat)
    requires packet > 0
    ensures Run(Initial(), BehindLoopRun(bytes), packet) ==
            State(bytes, false, false, Reading(RTailGuard, |bytes|, 0), 0, [], [], bytes, false)
  {
    var e1 := [Produce(bytes)];
    RunOneMore(Initial(), [], Produce(bytes), packet);
    assert [] + [Produce(bytes)] == e1 && [] + bytes == bytes;
    RunOneMore(Initial(), e1, ReaderLock, packet);
    RunOneMore(Initial(), e1 + [ReaderLock], Advance, packet);
    var e3 := e1 + [ReaderLock] + [Advance];
    assert Run(Initial(), e3, packet) ==
      State(bytes, false, false, Reading(RGuard, |bytes|, 0), 0, [], [], bytes, false);
    RunOneMore(Initial(), e3, Advance, packet);
    RunOneMore(Initial(), e3 + [Advance], Advance, packet);
  }

  lemma {:induction false} TailTakesAll(es: seq<Event>, s: State, bytes: seq<Byte>, packet: nat)
    requires packet > 0 && bytes != [] && s == Run(Initial(), es, packet)
    requires s.holder == Reading(RTailGuardRun, |bytes|, 0) && s.queue == bytes && s.running && s.log == []
    ensures var t := Run(Initial(), es + [Advance] + [Advance] + [Advance], packet);
            t.log == [Chunk(bytes, false)] && t.flag == s.flag && t.pending == s.pending
  {
    RunOneMore(Initial(), es, Advance, packet);
    RunOneMore(Initial(), es + [Advance], Advance, packet);
    RunOneMore(Initial(), es + [Advance] + [Advance], Advance, packet);
    assert bytes[..|bytes|] == bytes && [] + [Chunk(bytes, false)] == [Chunk(bytes, false)];
  }

  // ---------- flushing ----------

  // From `s` to `t` the log only grew, and every new chunk that starts below `limit` was flushed.
  ghost predicate NoStale(s: State, t: State, limit: nat) {
    && s.log <= t.log
    && forall k :: |s.log| <= k < |t.log| && |Concat(t.log[..k])| < limit ==> t.log[k].flushed
  }

  // A flush that took the mutex when `limit` bytes had been produced is still at work, or has
  // consumed them all.
  ghost predicate FlushCovers(t: State, limit: nat) {
    || |Concat(t.log)| >= limit
    || (t.holder.Flushing? && t.holder.atLock == limit)
  }

  // The log stays, or gains one chunk, a flushed one while a flush holds the mutex.
  ghost predicate Grown(s: State, t: State) {
    t.log == s.log ||
    (|t.log| == |s.log| + 1 && t.log == s.log + [t.log[|s.log|]] && |Concat(s.log)| <= |Concat(t.log)| &&
     (s.holder.Flushing? ==> t.log[|s.log|].flushed))
  }

  lemma ReaderLog(s: State, packet: nat)
    requires s.holder.Reading? && packet > 0
    ensures Grown(s, AdvanceReader(s, packet))
  {
    match s.holder.rpc {
      case RDispatch => ConcatAppend(s.log, Chunk(s.hand, false));
      case RTailDispatch => ConcatAppend(s.log, Chunk(s.hand, false));
      case _ =>
    }
  }

  lemma FlusherLog(s: State, packet: nat)
    requires s.holder.Flushing? && packet > 0
    ensures Grown(s, AdvanceFlusher(s, packet))
  {
  }

  lemma LogGrows(s: State, e: Event, packet: nat)
    requires packet > 0
    ensures Grown(s, Next(s, e, packet)) && (Next(s, e, packet).log == s.log || e.Advance?)
  {
    if e.Advance? {
      if s.holder.Reading? {
        ReaderLog(s, packet);
      } else if s.holder.Flushing? {
        FlusherLog(s, packet);
      }
    }
  }

  lemma CoverStep(t: State, e: Event, packet: nat, limit: nat)
    requires Shape(t, packet) && packet > 0 && FlushCovers(t, limit)
    ensures FlushCovers(Next(t, e, packet), limit)
  {
    LogGrows(t, e, packet);
  }

  lemma StaleStep(s: State, t: State, u: State, limit: nat)
    requires NoStale(s, t, limit)
    requires t.log == u.log || (|u.log| == |t.log| + 1 && u.log == t.log + [u.log[|t.log|]])
    requires |u.log| > |t.log| ==> u.log[|t.log|].flushed || |Concat(t.log)| >= limit
    ensures NoStale(s, u, limit)
  {
    forall k | |s.log| <= k < |u.log| && |Concat(u.log[..k])| < limit ensures u.log[k].flushed {
      if k < |t.log| {
        assert u.log[..k] == t.log[..k];
      } else {
        assert u.log[..k] == t.log;
      }
    }
  }

  // What a flush is for: nothing that was produced before it took the mutex is dispatched after that,
  // in any continuation; and once it has released the mutex, all of it is gone from the queue.
  lemma {:induction false} FlushLeavesNothingStale(before: seq<Event>, after: seq<Event>, packet: nat)
    requires packet > 0
    requires var s := Run(Initial(), before, packet); s.holder.Free? && s.pending > 0
    ensures var s := Run(Initial(), before, packet);
            var t := Run(Next(s, FlusherLock, packet), after, packet);
            NoStale(s, t, |s.produced|) && FlushCovers(t, |s.produced|) && Inv(t, packet)
    decreases |after|
  {
    var s := Run(Initial(), before, packet);
    RunKeeps(before, packet);
    NextKeeps(s, FlusherLock, packet);
    if after == [] {
    } else {
      FlushLeavesNothingStale(before, after[..|after| - 1], packet);
      var t := Run(Next(s, FlusherLock, packet), after[..|after| - 1], packet);
      LogGrows(t, after[|after| - 1], packet);
      CoverStep(t, after[|after| - 1], packet, |s.produced|);
      StaleStep(s, t, Next(t, after[|after| - 1], packet), |s.produced|);
      NextKeeps(t, after[|after| - 1], packet);
    }
  }

  // While a flush holds the mutex no chunk is dispatched.
  lemma NoDispatchDuringFlush(s: State, e: Event, packet: nat)
    requires s.holder.Flushing? && packet > 0
    ensures var t := Next(s, e, packet);
            s.log <= t.log && forall k :: |s.log| <= k < |t.log| ==> t.log[k].flushed
  {
  }

  // A flush alone on the mutex ends: the holder's own actions reach the release.
  function Steps(s: State, packet: nat): nat
    requires packet > 0 && s.holder.Flushing?
  {
    match s.holder.fpc
    case FSize => |s.queue| + 4
    case FLoop => s.holder.left + 3
    case FLower => 2
    case FUnlock => 1
  }

  lemma {:induction false} FlushEnds(s: State, packet: nat) returns (n: nat)
    requires Inv(s, packet) && packet > 0 && s.holder.Flushing?
    ensures n <= Steps(s, packet)
    ensures var t := Run(s, seq(n, _ => Advance), packet);
            t.holder.Free? && Inv(t, packet) && |Concat(t.log)| >= s.holder.atLock
    decreases Steps(s, packet)
  {
    var t := Next(s, Advance, packet);
    NextKeeps(s, Advance, packet);
    FlushStep(s, packet);
    var rest := 0;
    if t.holder.Flushing? {
      rest := FlushEnds(t, packet);
    }
    n := rest + 1;
    RunFirst(s, seq(rest, _ => Advance), packet);
    assert seq(n, _ => Advance) == [Advance] + seq(rest, _ => Advance);
  }

  lemma FlushStep(s: State, packet: nat)
    requires Inv(s, packet) && packet > 0 && s.holder.Flushing?
    ensures var t := Next(s, Advance, packet);
            if t.holder.Flushing? then Steps(t, packet) < Steps(s, packet) && t.holder.atLock == s.holder.atLock
            else t.holder.Free? && t.log == s.log && |Concat(s.log)| >= s.holder.atLock
  {
  }

  lemma {:induction false} RunFirst(s: State, es: seq<Event>, packet: nat)
    requires packet > 0
    ensures Run(s, [Advance] + es, packet) == Run(Next(s, Advance, packet), es, packet)
    decreases |es|
  {
    if es == [] {
      assert [Advance] + es == [Advance] && Run(s, [], packet) == s;
      assert [Advance][..0] == [];
    } else {
      RunFirst(s, es[..|es| - 1], packet);
      assert ([Advance] + es)[..|es|] == [Advance] + es[..|es| - 1];
    }
  }

  // ---------- the two functions by themselves ----------

  // What the demux has been given.
  function Injected(log: seq<Chunk>): seq<seq<Byte>> {
    if log == [] then []
    else Injected(log[..|log| - 1]) + if log[|log| - 1].flushed then [] else [log[|log| - 1].bytes]
  }

  lemma {:induction false} InjectedAppend(log: seq<Chunk>, c: Chunk)
    ensures Injected(log + [c]) == Injected(log) + if c.flushed then [] else [c.bytes]
  {
  }

  lemma {:induction false} RunOneMore(s: State, es: seq<Event>, e: Event, packet: nat)
    requires packet > 0
    ensures Run(s, es + [e], packet) == Next(Run(s, es, packet), e, packet)
  {
  }

  // The loop's guard counts packets, the machine's counts bytes.
  lemma GuardCountsBytes(i: nat, size: nat, packet: nat, tmpSize: nat)
    requires packet > 0 && tmpSize == i * packet
    ensures i < size / packet <==> tmpSize + packet <= size
  {
    var q, r := size / packet, size % packet;
    assert size == q * packet + r;
    if i < q {
      TimesGrows(i + 1, q, packet);
      assert (i + 1) * packet == tmpSize + packet;
    } else {
      TimesGrows(q, i, packet);
    }
  }

  lemma TimesGrows(a: nat, b: nat, packet: nat)
    requires a <= b
    ensures a * packet <= b * packet
  {
    assert b * packet == a * packet + (b - a) * packet;
  }

  // `st` is the state of the machine above at the same point, reached from `start` by the actions in `trace`.
  class Dvr {
    const packet: nat
    var queue: seq<Byte>
    var flushing: bool
    var threadRunning: bool
    var injected: seq<seq<Byte>>
    ghost var st: State
    ghost var start: State
    ghost var trace: seq<Event>

    constructor (unit: nat)
      requires unit > 0
      ensures Coupled() && packet == unit && st == Initial()
    {
      packet, queue, flushing, threadRunning, injected := unit, [], false, false, [];
      st, start, trace := Initial(), Initial(), [];
    }

    ghost predicate Coupled()
      reads this
    {
      && packet > 0 && st == Run(start, trace, packet)
      && st.queue == queue && st.flag == flushing && st.running == threadRunning && injected == Injected(st.log)
    }

    // One action of the machine, and the state that it leads to.
    ghost method Act(e: Event, t: State)
      requires packet > 0 && st == Run(start, trace, packet) && t == Next(st, e, packet)
      modifies this`st, this`trace
      ensures st == t == Run(start, trace, packet)
    {
      RunOneMore(start, trace, e, packet);
      st, trace := t, trace + [e];
    }

    // Taking the mutex begins a new trace.
    ghost method Begin()
      requires packet > 0
      modifies this`start, this`trace
      ensures start == st == Run(start, trace, packet) && trace == []
    {
      start, trace := st, [];
    }

    method TakeFromQueue(n: nat) returns (bytes: seq<Byte>)
      requires n <= |queue|
      modifies this`queue
      ensures bytes == old(queue)[..n] && queue == old(queue)[n..]
    {
      bytes := queue[..n];
      queue := queue[n..];
    }

    method LockForFlush() returns (left: nat)
      requires Coupled() && st.holder.Free?
      modifies this`flushing, this`st, this`start, this`trace
      ensures Coupled() && start == old(st) && flushing && left == |queue| && st.hand == old(st.hand)
      ensures st.holder == Flushing(FLoop, left, |old(st.produced)|)
    {
      Begin();
      flushing := true;
      Act(RaiseFlag, st.(flag := true, pending := st.pending + 1));
      Act(FlusherLock, st.(pending := st.pending - 1, holder := Flushing(FSize, 0, |st.produced|)));
      left := |queue|;
      Act(Advance, st.(holder := Flushing(FLoop, left, |st.produced|)));
    }

    method UnlockAfterFlush(ghost atLock: nat)
      requires Coupled() && st.holder == Flushing(FLoop, 0, atLock)
      modifies this`flushing, this`st, this`trace
      ensures Coupled() && st.holder.Free? && !flushing && st.hand == old(st.hand)
    {
      Act(Advance, st.(holder := Flushing(FLower, 0, atLock)));
      flushing := false;
      Act(Advance, st.(flag := false, holder := Flushing(FUnlock, 0, atLock)));
      Act(Advance, st.(holder := Free));
    }

    // One iteration of the flush loop.
    method FlushChunk(left: nat, ghost atLock: nat) returns (left': nat)
      requires Coupled() && 0 < left == |queue| && st.holder == Flushing(FLoop, left, atLock)
      modifies this`queue, this`st, this`trace
      ensures Coupled() && left' == |queue| < left && st.holder == Flushing(FLoop, left', atLock)
      ensures st.hand == old(st.hand)
    {
      ghost var log := st.log;
      var buffer;
      if left > packet {
        buffer := TakeFromQueue(packet);
        left' := left - packet;
      } else {
        buffer := TakeFromQueue(left);
        left' := 0;
      }
      InjectedAppend(log, Chunk(buffer, true));
      Act(Advance, st.(log := log + [Chunk(buffer, true)], queue := queue, holder := Flushing(FLoop, left', atLock)));
    }

    // A flush that nothing interrupts is a run of the machine; it empties the queue.
    method Flush()
      requires Coupled() && st.holder.Free?
      modifies this
      ensures Coupled() && start == old(st) && st.holder.Free? && st.hand == old(st.hand)
      ensures queue == [] && !flushing && injected == old(injected) && threadRunning == old(threadRunning)
    {
      ghost var atLock := |st.produced|;
      var left := LockForFlush();
      while left > 0
        invariant 0 <= left == |queue| && flushing && Coupled() && st.holder == Flushing(FLoop, left, atLock)
        invariant start == old(st) && st.hand == old(st.hand)
        invariant injected == old(injected) && threadRunning == old(threadRunning)
        decreases left
      {
        left := FlushChunk(left, atLock);
      }
      UnlockAfterFlush(atLock);
    }

    // Reading `n` bytes: a whole unit, or the tail.
    method ReadInto(n: nat, ghost size: nat, ghost tmpSize: nat, ghost whole: bool)
      returns (dataOutputBuffer: seq<Byte>)
      requires Coupled() && 0 < n <= |queue| && st.hand == []
      requires if whole then st.holder == Reading(RRead, size, tmpSize) && n == packet
               else st.holder == Reading(RTailRead, size, tmpSize) && n == size - tmpSize
      modifies this`queue, this`st, this`trace
      ensures Coupled() && st.hand == dataOutputBuffer == old(queue)[..n] && queue == old(queue)[n..]
      ensures st.holder == Reading(if whole then RDispatch else RTailDispatch, size, tmpSize)
    {
      dataOutputBuffer := TakeFromQueue(n);
      Act(Advance, st.(hand := dataOutputBuffer, queue := queue,
                       holder := Reading(if whole then RDispatch else RTailDispatch, size, tmpSize)));
    }

    // Handing them to the demux.
    method Inject(dataOutputBuffer: seq<Byte>, ghost size: nat, ghost tmpSize: nat, ghost whole: bool)
      requires Coupled() && st.hand == dataOutputBuffer
      requires st.holder == Reading(if whole then RDispatch else RTailDispatch, size, tmpSize)
      modifies this`injected, this`st, this`trace
      ensures Coupled() && st.hand == [] && injected == old(injected) + [dataOutputBuffer]
      ensures st.holder == if whole then Reading(RGuard, size, tmpSize + packet) else Reading(RUnlock, size, tmpSize)
    {
      InjectedAppend(st.log, Chunk(dataOutputBuffer, false));
      injected := injected + [dataOutputBuffer];
      Act(Advance, st.(log := st.log + [Chunk(dataOutputBuffer, false)], hand := [],
                       holder := if whole then Reading(RGuard, size, tmpSize + packet)
                                 else Reading(RUnlock, size, tmpSize)));
    }

    // The loop over whole packets.
    method ReadWhole(size: nat) returns (tmpSize: nat, i: nat)
      requires Coupled() && |queue| == size && st.hand == [] && st.holder == Reading(RGuard, size, 0)
      modifies this`queue, this`injected, this`st, this`trace
      ensures Coupled() && st.hand == [] && tmpSize <= size && |queue| == size - tmpSize
      ensures st.holder == Reading(RGuard, size, tmpSize)
      ensures if flushing || !threadRunning then queue == old(queue) && injected == old(injected)
              else size < tmpSize + packet
    {
      tmpSize, i := 0, 0;
      while !flushing && threadRunning && i < size / packet
        invariant tmpSize == i * packet <= size && |queue| == size - tmpSize
        invariant (flushing || !threadRunning) ==> queue == old(queue) && injected == old(injected)
        invariant Coupled() && st.hand == [] && st.holder == Reading(RGuard, size, tmpSize)
        decreases size - tmpSize
      {
        GuardCountsBytes(i, size, packet, tmpSize);
        Act(Advance, st.(holder := Reading(RGuardRun, size, tmpSize)));
        Act(Advance, st.(holder := Reading(RRead, size, tmpSize)));
        var dataOutputBuffer := ReadInto(packet, size, tmpSize, true);
        Inject(dataOutputBuffer, size, tmpSize, true);
        tmpSize := tmpSize + packet;
        i := i + 1;
      }
      GuardCountsBytes(i, size, packet, tmpSize);
    }

    method LockForRead() returns (size: nat)
      requires Coupled() && st.holder.Free? && st.hand == []
      modifies this`st, this`start, this`trace
      ensures Coupled() && start == old(st) && st.hand == [] && size == |queue| && st.holder == Reading(RGuard, size, 0)
    {
      Begin();
      Act(ReaderLock, st.(holder := Reading(RSize, 0, 0)));
      size := |queue|;
      Act(Advance, st.(holder := Reading(RGuard, size, 0)));
    }

    // The loads of the two guards.
    ghost method LeaveLoop(size: nat, tmpSize: nat)
      requires Coupled() && st.holder == Reading(RGuard, size, tmpSize)
      requires flushing || !threadRunning || size < tmpSize + packet
      modifies this`st, this`trace
      ensures Coupled() && st == old(st).(holder := Reading(RTailGuard, size, tmpSize))
    {
      if !flushing {
        Act(Advance, st.(holder := Reading(RGuardRun, size, tmpSize)));
      }
      Act(Advance, st.(holder := Reading(RTailGuard, size, tmpSize)));
    }

    ghost method PassTailGuard(size: nat, tmpSize: nat)
      requires Coupled() && st.holder == Reading(RTailGuard, size, tmpSize)
      requires size > tmpSize && !flushing && threadRunning
      modifies this`st, this`trace
      ensures Coupled() && st == old(st).(holder := Reading(RTailRead, size, tmpSize))
    {
      Act(Advance, st.(holder := Reading(RTailGuardRun, size, tmpSize)));
      Act(Advance, st.(holder := Reading(RTailRead, size, tmpSize)));
    }

    ghost method FailTailGuard(size: nat, tmpSize: nat)
      requires Coupled() && st.holder == Reading(RTailGuard, size, tmpSize)
      requires size <= tmpSize || flushing || !threadRunning
      modifies this`st, this`trace
      ensures Coupled() && st == old(st).(holder := Reading(RUnlock, size, tmpSize))
    {
      if size > tmpSize && !flushing {
        Act(Advance, st.(holder := Reading(RTailGuardRun, size, tmpSize)));
      }
      Act(Advance, st.(holder := Reading(RUnlock, size, tmpSize)));
    }

    // What is left behind the whole packets.
    method ReadTail(size: nat, tmpSize: nat)
      requires Coupled() && st.hand == [] && tmpSize <= size && |queue| == size - tmpSize
      requires st.holder == Reading(RGuard, size, tmpSize)
      requires flushing || !threadRunning || size < tmpSize + packet
      modifies this`queue, this`injected, this`st, this`trace
      ensures Coupled() && st.hand == [] && st.holder.Free?
      ensures if flushing || !threadRunning then queue == old(queue) && injected == old(injected) else queue == []
    {
      var leftSize := size - tmpSize;
      LeaveLoop(size, tmpSize);
      if leftSize > 0 && !flushing && threadRunning {
        PassTailGuard(size, tmpSize);
        var dataOutputBuffer := ReadInto(leftSize, size, tmpSize, false);
        Inject(dataOutputBuffer, size, tmpSize, false);
      } else {
        FailTailGuard(size, tmpSize);
      }
      Act(Advance, st.(holder := Free));
    }

    // A read that nothing interrupts is a run of the machine; it takes everything, or nothing when it may
    // not inject.
    method ReadPlaybackFMQ()
      requires Coupled() && st.holder.Free? && st.hand == []
      modifies this
      ensures Coupled() && start == old(st) && st.holder.Free? && st.hand == []
      ensures if flushing || !threadRunning then queue == old(queue) && injected == old(injected) else queue == []
      ensures flushing == old(flushing) && threadRunning == old(threadRunning)
    {
      var size := LockForRead();
      var tmpSize, _ := ReadWhole(size);
      ReadTail(size, tmpSize);
    }
  }
}
