/**
 Byte offsets of record events: the record thread counts the bytes it reads, marks the filters of the pid it
 believes to record with that offset, and one filter is dispatched.
 */
module RecordOffsets {

  type Byte = x: int | 0 <= x < 256

  // A pid, or -1 for none.
  type Pid = x: int | -1 <= x < 0x1_0000

  // Offsets are unsigned 64-bit; -1 stands for none.
  const NO_OFFSET: nat := 0xFFFF_FFFF_FFFF_FFFF

  // What the driver says about a chunk: its time stamp, and whether an I-frame or a payload unit starts in it.
  datatype Index = Index(pts: nat, iFrame: bool, unitStart: bool)

  // A record filter: its own pid, the video or audio pid it was configured to record, the bytes waiting in
  // it, and the offset and index it will report.
  datatype Rec = Rec(tpid: Pid, videoPid: Pid, audioPid: Pid, output: seq<Byte>, offset: nat, index: Index)

  // `before` is the number of bytes read in PUSI mode before the chunk of the event.
  datatype Event = Event(pusi: bool, byteNumber: nat, index: Index, data: seq<Byte>, before: nat)

  // The record filters in the order of their ids, the record thread's variables, and the events sent.
  // `total` counts the bytes read in PUSI mode.
  datatype State = State(filters: seq<Rec>, videoPid: Pid, audioPid: Pid, offset: nat, total: nat, events: seq<Event>)

  // ---------- one iteration of the record thread ----------

  // The first filter from `i` on that records video, or audio; the number of filters if there is none.
  function FirstVideo(fs: seq<Rec>, i: nat): (k: nat)
    requires i <= |fs|
    ensures i <= k <= |fs| && (k < |fs| ==> fs[k].videoPid != -1) && forall j :: i <= j < k ==> fs[j].videoPid == -1
    decreases |fs| - i
  {
    if i == |fs| || fs[i].videoPid != -1 then i else FirstVideo(fs, i + 1)
  }

  function FirstAudio(fs: seq<Rec>, i: nat): (k: nat)
    requires i <= |fs|
    ensures i <= k <= |fs| && (k < |fs| ==> fs[k].audioPid != -1) && forall j :: i <= j < k ==> fs[j].audioPid == -1
    decreases |fs| - i
  {
    if i == |fs| || fs[i].audioPid != -1 then i else FirstAudio(fs, i + 1)
  }

  // The filter that is given the bytes and then dispatched: the first that records video, else the first
  // that records audio, else the first.
  function Chosen(fs: seq<Rec>): (k: nat)
    requires fs != []
    ensures k < |fs|
  {
    if FirstVideo(fs, 0) < |fs| then FirstVideo(fs, 0)
    else if FirstAudio(fs, 0) < |fs| then FirstAudio(fs, 0)
    else 0
  }

  function VideoPid(fs: seq<Rec>): Pid {
    if FirstVideo(fs, 0) < |fs| then fs[FirstVideo(fs, 0)].videoPid else -1
  }

  function AudioPid(fs: seq<Rec>): Pid {
    if FirstAudio(fs, 0) < |fs| then fs[FirstAudio(fs, 0)].audioPid else -1
  }

  // The pids at the start of an iteration: a pid that has been seen is kept when its filter is gone.
  function Mode(s: State): (State, bool) {
    if VideoPid(s.filters) != -1 then (s.(videoPid := VideoPid(s.filters)), true)
    else if AudioPid(s.filters) != -1 then (s.(audioPid := AudioPid(s.filters)), true)
    else (s, false)
  }

  // The pid whose filters are marked with the offset.
  function UsedPid(s: State): Pid {
    if s.videoPid != -1 then s.videoPid else s.audioPid
  }

  function Append(fs: seq<Rec>, data: seq<Byte>): (r: seq<Rec>)
    ensures |r| == |fs|
  {
    if fs == [] then fs else fs[Chosen(fs) := fs[Chosen(fs)].(output := fs[Chosen(fs)].output + data)]
  }

  function MarkOne(f: Rec, pid: Pid, offset: nat, index: Index): Rec {
    if f.tpid == pid then f.(offset := offset, index := index) else f
  }

  function Mark(fs: seq<Rec>, pid: Pid, offset: nat, index: Index): (r: seq<Rec>)
    ensures |r| == |fs|
  {
    seq(|fs|, k requires 0 <= k < |fs| => MarkOne(fs[k], pid, offset, index))
  }

  // A filter that has sent its event keeps only the time stamp.
  function Sent(f: Rec): Rec {
    f.(output := [], offset := NO_OFFSET, index := Index(f.index.pts, false, false))
  }

  // `startRecordFilterHandler` of the chosen filter; `accepts` tells whether the record queue took its bytes.
  function Dispatch(s: State, pusi: bool, accepts: bool): State {
    if s.filters == [] then s
    else
      var c := Chosen(s.filters);
      var f := s.filters[c];
      if f.output != [] && !accepts then s.(filters := s.filters[c := f.(output := [])])
      else
        s.(filters := s.filters[c := Sent(f)],
           events := s.events + [Event(pusi, f.offset, f.index, f.output, s.total)])
  }

  // One iteration that read `data`.
  function Iterate(s: State, data: seq<Byte>, index: Index, accepts: bool): State {
    var (m, pusi) := Mode(s);
    if !pusi then Dispatch(m.(filters := Append(m.filters, data)), false, accepts)
    else
      var marked := m.(filters := Mark(Append(m.filters, data), UsedPid(m), m.offset, index));
      var sent := if UsedPid(m) != -1 then Dispatch(marked, true, accepts) else m;
      sent.(offset := (sent.offset + |data|) % 0x1_0000_0000_0000_0000, total := sent.total + |data|)
  }

  // ---------- runs ----------

  // Between iterations the client may attach, detach and configure filters in any way. A read may bring
  // nothing; the pids have been remembered by then.
  datatype Step = Read(data: seq<Byte>, index: Index, accepts: bool) | Change(filters: seq<Rec>)

  function Next(s: State, x: Step): State {
    match x
    case Read(data, index, accepts) => if data == [] then Mode(s).0 else Iterate(s, data, index, accepts)
    case Change(filters) => s.(filters := filters)
  }

  function Run(s: State, xs: seq<Step>): State
    decreases |xs|
  {
    if xs == [] then s else Run(Next(s, xs[0]), xs[1..])
  }

  predicate Drained(fs: seq<Rec>) {
    forall k :: 0 <= k < |fs| ==> fs[k].output == []
  }

  // The client changes no bytes that wait.
  predicate WellFormed(xs: seq<Step>) {
    forall i :: 0 <= i < |xs| && xs[i].Change? ==> Drained(xs[i].filters)
  }

  // No bytes wait in a filter between iterations, and the offset is the number of bytes read so far.
  predicate Inv(s: State) {
    Drained(s.filters) && s.offset == s.total % 0x1_0000_0000_0000_0000
  }

  // The offsets of all PUSI events are the sums of the lengths of the earlier PUSI chunks.
  predicate Exact(events: seq<Event>) {
    forall k :: 0 <= k < |events| && events[k].pusi ==>
      events[k].byteNumber == events[k].before % 0x1_0000_0000_0000_0000
  }

  // ---------- one iteration ----------

  // The pid that an iteration in PUSI mode uses is the dispatched filter's own.
  predicate Aimed(s: State) {
    s.filters != [] && Mode(s).1 ==> s.filters[Chosen(s.filters)].tpid == UsedPid(Mode(s).0)
  }

  // The filter that is dispatched: the first that records video, or if none does, the first that records audio,
  // or if none does that either, the very first.
  lemma ChosenExactly(fs: seq<Rec>)
    requires fs != []
    ensures var c := Chosen(fs);
            || (fs[c].videoPid != -1 && forall j :: 0 <= j < c ==> fs[j].videoPid == -1)
            || (fs[c].audioPid != -1 && (forall j :: 0 <= j < |fs| ==> fs[j].videoPid == -1) &&
                forall j :: 0 <= j < c ==> fs[j].audioPid == -1)
            || (c == 0 && forall j :: 0 <= j < |fs| ==> fs[j].videoPid == -1 && fs[j].audioPid == -1)
  {
  }

  // PUSI mode is chosen exactly if some filter records video or audio. What is remembered then is the video pid of
  // the dispatched filter, or without one its audio pid; and the pid that is used is the first of these: its video
  // pid, the video pid remembered from before, its audio pid.
  lemma ModeExactly(s: State)
    ensures var (m, pusi) := Mode(s);
            && (pusi <==> exists k :: 0 <= k < |s.filters| && Records(s.filters[k]))
            && m.filters == s.filters && m.offset == s.offset && m.total == s.total && m.events == s.events
            && (pusi ==> s.filters != [])
            && (pusi ==>
                  var f := s.filters[Chosen(s.filters)];
                  && m.videoPid == (if f.videoPid != -1 then f.videoPid else s.videoPid)
                  && m.audioPid == (if f.videoPid == -1 then f.audioPid else s.audioPid)
                  && UsedPid(m) == (if f.videoPid != -1 then f.videoPid
                                    else if s.videoPid != -1 then s.videoPid else f.audioPid))
            && (!pusi ==> m == s)
  {
    if s.filters != [] {
      ChosenExactly(s.filters);
      assert Records(s.filters[Chosen(s.filters)]) <==> Mode(s).1;
    }
  }

  predicate Records(f: Rec) {
    f.videoPid != -1 || f.audioPid != -1
  }

  // Filter `k` before it is dispatched: the chosen one has the bytes, those of the marked pid offset and index.
  lemma MarkedAt(fs: seq<Rec>, data: seq<Byte>, pid: Pid, offset: nat, index: Index, k: nat)
    requires Drained(fs) && k < |fs|
    ensures var a, f := Append(fs, data), fs[k];
            && |a| == |fs| && Chosen(a) == Chosen(fs)
            && a[k] == f.(output := if k == Chosen(fs) then data else [])
            && Mark(a, pid, offset, index)[k] ==
               Rec(f.tpid, f.videoPid, f.audioPid, if k == Chosen(fs) then data else [],
                   if f.tpid == pid then offset else f.offset, if f.tpid == pid then index else f.index)
  {
    SameChoice(fs, Append(fs, data));
    assert [] + data == data && fs[k].output == [];
  }

  // Dispatching changes the chosen filter alone.
  lemma DispatchExactly(s: State, pusi: bool, accepts: bool, k: nat)
    requires k < |s.filters|
    ensures var t, c, f := Dispatch(s, pusi, accepts), Chosen(s.filters), s.filters[k];
            var sent := f.output == [] || accepts;
            && |t.filters| == |s.filters| && t.total == s.total && t.offset == s.offset
            && t.videoPid == s.videoPid && t.audioPid == s.audioPid
            && t.filters[k] ==
               (if k != c then f
                else if sent then
                  Rec(f.tpid, f.videoPid, f.audioPid, [], 0xFFFF_FFFF_FFFF_FFFF, Index(f.index.pts, false, false))
                else f.(output := []))
            && (k == c ==>
                  t.events == s.events + if sent then [Event(pusi, f.offset, f.index, f.output, s.total)] else [])
  {
    assert s.events + [] == s.events;
  }

  // Every filter after one iteration. Those of the used pid are marked with offset and index in PUSI mode; the
  // dispatched one loses its bytes, and once its event is sent also its offset and all of its index but the time
  // stamp.
  lemma FiltersAfter(s: State, data: seq<Byte>, index: Index, accepts: bool, k: nat)
    requires Drained(s.filters) && data != [] && k < |s.filters|
    ensures var t, f := Iterate(s, data, index, accepts), s.filters[k];
            var marked := Mode(s).1 && f.tpid == UsedPid(Mode(s).0);
            var now := if marked then index else f.index;
            |t.filters| == |s.filters| &&
            t.filters[k] ==
              if k == Chosen(s.filters) && accepts then
                Rec(f.tpid, f.videoPid, f.audioPid, [], 0xFFFF_FFFF_FFFF_FFFF, Index(now.pts, false, false))
              else Rec(f.tpid, f.videoPid, f.audioPid, [], if marked then s.offset else f.offset, now)
  {
    var m := Mode(s).0;
    var a := Append(m.filters, data);
    MarkedAt(m.filters, data, UsedPid(m), m.offset, index, k);
    if Mode(s).1 {
      PusiHasFilters(s);
      var marked := Mark(a, UsedPid(m), m.offset, index);
      MarkKeepsChosen(m.filters, data, UsedPid(m), m.offset, index);
      DispatchExactly(m.(filters := marked), true, accepts, k);
    } else {
      DispatchExactly(m.(filters := a), false, accepts, k);
    }
  }

  lemma MarkKeepsChosen(fs: seq<Rec>, data: seq<Byte>, pid: Pid, offset: nat, index: Index)
    requires fs != []
    ensures var a, b := Append(fs, data), Mark(Append(fs, data), pid, offset, index);
            Chosen(a) == Chosen(fs) && Chosen(b) == Chosen(fs)
  {
    var a, b := Append(fs, data), Mark(Append(fs, data), pid, offset, index);
    SameChoice(fs, a);
    SameChoice(fs, b);
  }

  lemma SameChoice(fs: seq<Rec>, gs: seq<Rec>)
    requires fs != [] && |fs| == |gs|
    requires forall k :: 0 <= k < |fs| ==> fs[k].videoPid == gs[k].videoPid && fs[k].audioPid == gs[k].audioPid
    ensures Chosen(fs) == Chosen(gs)
  {
  }

  lemma PusiHasFilters(s: State)
    requires Mode(s).1
    ensures s.filters != [] && UsedPid(Mode(s).0) != -1
  {
  }

  // The event of an accepted chunk: marked with the offset and the index of the chunk if the used pid is the
  // dispatched filter's, and with what was left in that filter if not.
  function EventOf(s: State, data: seq<Byte>, index: Index): Event
    requires Mode(s).1
  {
    PusiHasFilters(s);
    var f := s.filters[Chosen(s.filters)];
    Event(true, if Aimed(s) then s.offset else f.offset, if Aimed(s) then index else f.index, data, s.total)
  }

  // What one iteration in PUSI mode sends: nothing when the write failed, and otherwise one event with the
  // bytes just read. Refused or not, the bytes are counted.
  lemma IterationSends(s: State, data: seq<Byte>, index: Index, accepts: bool)
    requires Inv(s) && data != [] && Mode(s).1
    ensures var t := Iterate(s, data, index, accepts);
            && Inv(t) && t.total == s.total + |data|
            && t.events == s.events + if accepts then [EventOf(s, data, index)] else []
  {
    PusiHasFilters(s);
    var m := Mode(s).0;
    var fs := m.filters;
    MarkKeepsChosen(fs, data, UsedPid(m), m.offset, index);
    var marked := Mark(Append(fs, data), UsedPid(m), m.offset, index);
    MarkedAt(fs, data, UsedPid(m), m.offset, index, Chosen(fs));
    DispatchExactly(m.(filters := marked), true, accepts, Chosen(fs));
    forall k | 0 <= k < |fs| ensures Iterate(s, data, index, accepts).filters[k].output == [] {
      FiltersAfter(s, data, index, accepts, k);
    }
    OffsetGrows(s.offset, s.total, |data|);
  }

  lemma OffsetGrows(offset: nat, total: nat, n: nat)
    requires offset == total % 0x1_0000_0000_0000_0000
    ensures (offset + n) % 0x1_0000_0000_0000_0000 == (total + n) % 0x1_0000_0000_0000_0000
  {
  }

  // What one iteration in direct mode sends: the bytes just read with what was left in the dispatched filter,
  // if there is one and the write succeeded. The offset stays.
  lemma DirectSends(s: State, data: seq<Byte>, index: Index, accepts: bool)
    requires Inv(s) && data != [] && !Mode(s).1
    ensures var t := Iterate(s, data, index, accepts);
            && Inv(t) && t.total == s.total && t.offset == s.offset
            && t.events == s.events +
                 if s.filters != [] && accepts then
                   var f := s.filters[Chosen(s.filters)]; [Event(false, f.offset, f.index, data, s.total)]
                 else []
  {
    assert s.events + [] == s.events;
    if s.filters != [] {
      var a := Append(s.filters, data);
      MarkedAt(s.filters, data, -1, 0, index, Chosen(s.filters));
      DispatchExactly(s.(filters := a), false, accepts, Chosen(s.filters));
      forall k | 0 <= k < |a| ensures Iterate(s, data, index, accepts).filters[k].output == [] {
        FiltersAfter(s, data, index, accepts, k);
      }
    }
  }

  // When the used pid is the dispatched filter's, by the dispatched filter alone: while one records video,
  // the video pid of that filter counts; otherwise the remembered video pid, if any; otherwise the audio pid.
  lemma AimedExactly(s: State)
    requires Mode(s).1
    ensures s.filters != []
    ensures var f := s.filters[Chosen(s.filters)];
            Aimed(s) <==>
              f.tpid == if VideoPid(s.filters) != -1 then f.videoPid
                        else if s.videoPid != -1 then s.videoPid
                        else f.audioPid
  {
  }

  // A filter records its own pid, or nothing. This holds until a filter is configured again with another pid
  // and without the index that it had.
  predicate Consistent(fs: seq<Rec>) {
    forall k :: 0 <= k < |fs| ==>
      fs[k].tpid != -1 && fs[k].videoPid in {-1, fs[k].tpid} && fs[k].audioPid in {-1, fs[k].tpid}
  }

  lemma ConsistentAimed(s: State)
    requires Consistent(s.filters) && Mode(s).1
    ensures s.filters != []
    ensures Aimed(s) <==>
              VideoPid(s.filters) != -1 || s.videoPid == -1 || s.videoPid == s.filters[Chosen(s.filters)].tpid
  {
    AimedExactly(s);
  }

  // ---------- runs with right offsets ----------

  // The condition on one step, which can be checked before it: the used pid is the dispatched filter's, or
  // what is left in that filter happens to be the offset.
  predicate Right(s: State, x: Step) {
    x.Read? && x.data != [] && x.accepts && Mode(s).1 ==>
      s.filters != [] && (Aimed(s) || s.filters[Chosen(s.filters)].offset == s.offset)
  }

  predicate AllRight(s: State, xs: seq<Step>)
    decreases |xs|
  {
    xs == [] || (Right(s, xs[0]) && AllRight(Next(s, xs[0]), xs[1..]))
  }

  // One event more.
  lemma ExactAppend(events: seq<Event>, e: Event)
    ensures Exact(events + [e]) <==> Exact(events) && (e.pusi ==> e.byteNumber == e.before % 0x1_0000_0000_0000_0000)
  {
    var more := events + [e];
    assert more[|events|] == e;
    assert forall k :: 0 <= k < |events| ==> more[k] == events[k];
  }

  // An accepted PUSI chunk's event carries the sum of the earlier lengths exactly under that condition.
  lemma NextExact(s: State, x: Step)
    requires Inv(s) && (x.Change? ==> Drained(x.filters))
    ensures Inv(Next(s, x)) && (Exact(Next(s, x).events) <==> Exact(s.events) && Right(s, x))
  {
    if x.Read? && x.data != [] {
      var t := Next(s, x);
      if Mode(s).1 {
        PusiHasFilters(s);
        IterationSends(s, x.data, x.index, x.accepts);
        if x.accepts {
          ExactAppend(s.events, EventOf(s, x.data, x.index));
        } else {
          assert s.events + [] == s.events;
        }
      } else {
        DirectSends(s, x.data, x.index, x.accepts);
        if |t.events| > |s.events| {
          ExactAppend(s.events, t.events[|s.events|]);
        } else {
          assert s.events + [] == s.events;
        }
      }
    }
  }

  // In every run, all PUSI events carry the sum of the lengths of all earlier PUSI chunks, modulo 2^64, also
  // when the record queue refused some, exactly if each accepted one met the condition.
  lemma {:induction false} OffsetsAreSums(s: State, xs: seq<Step>)
    requires Inv(s) && WellFormed(xs)
    ensures Inv(Run(s, xs)) && (Exact(Run(s, xs).events) <==> Exact(s.events) && AllRight(s, xs))
    decreases |xs|
  {
    if xs == [] {
    } else {
      assert xs[0].Change? ==> Drained(xs[0].filters);
      NextExact(s, xs[0]);
      forall i | 0 <= i < |xs[1..]| && xs[1..][i].Change? ensures Drained(xs[1..][i].filters) {
        assert xs[1..][i] == xs[i + 1];
      }
      OffsetsAreSums(Next(s, xs[0]), xs[1..]);
    }
  }

  // A run from the start that loses an offset: a poll remembers the video pid though it brings no data, the
  // video filter is detached, and the event of the audio filter that stays carries no offset at all.
  lemma DetachedVideoLosesOffset(video: Pid, audio: Pid, data: seq<Byte>, index: Index)
    requires 0 <= video && 0 <= audio && video != audio && data != []
    ensures var none := Index(0, false, false);
            var s := Run(State([], -1, -1, 0, 0, []),
                         [Change([Rec(video, video, -1, [], NO_OFFSET, none)]), Read([], index, true),
                          Change([Rec(audio, -1, audio, [], NO_OFFSET, none)]), Read(data, index, true)]);
            s.events == [Event(true, NO_OFFSET, none, data, 0)] && !Exact(s.events)
  {
    var none := Index(0, false, false);
    var v, a := [Rec(video, video, -1, [], NO_OFFSET, none)], [Rec(audio, -1, audio, [], NO_OFFSET, none)];
    var s0 := State([], -1, -1, 0, 0, []);
    RunOfFour(s0, Change(v), Read([], index, true), Change(a), Read(data, index, true));
    assert FirstVideo(v, 0) == 0 && FirstVideo(a, 1) == 1 && FirstVideo(a, 0) == 1 && FirstAudio(a, 0) == 0;
    var u := Next(Next(Next(s0, Change(v)), Read([], index, true)), Change(a));
    assert u == State(a, video, -1, 0, 0, []);
    IterationSends(u, data, index, true);
    var e := Event(true, NO_OFFSET, none, data, 0);
    assert EventOf(u, data, index) == e && [] + [e] == [e];
    ExactAppend([], e);
  }

  lemma {:induction false} RunOfFour(s: State, a: Step, b: Step, c: Step, d: Step)
    ensures Run(s, [a, b, c, d]) == Next(Next(Next(Next(s, a), b), c), d)
  {
    assert [a, b, c, d][1..] == [b, c, d] && [b, c, d][1..] == [c, d] && [c, d][1..] == [d] && [d][1..] == [];
    var u := Next(Next(s, a), b);
    assert Run(s, [a, b, c, d]) == Run(Next(s, a), [b, c, d]) == Run(u, [c, d]);
    assert Run(u, [c, d]) == Run(Next(u, c), [d]) == Run(Next(Next(u, c), d), []);
  }

  // ---------- the recorder ----------

  class Recorder {
    var filters: seq<Rec>
    var videoPid: Pid
    var audioPid: Pid
    var offset: nat
    var events: seq<Event>
    var total: nat  // the thread does not keep it; it is what offsets are compared with

    ghost function S(): State
      reads this
    {
      State(filters, videoPid, audioPid, offset, total, events)
    }

    constructor ()
      ensures S() == State([], -1, -1, 0, 0, []) && Inv(S()) && Exact(S().events)
    {
      filters, videoPid, audioPid, offset, events, total := [], -1, -1, 0, [], 0;
    }

    method GetRecordVideoPid() returns (pid: Pid, k: nat)
      ensures pid == VideoPid(filters) && k == FirstVideo(filters, 0)
    {
      k := 0;
      while k < |filters|
        invariant k <= |filters| && FirstVideo(filters, 0) == FirstVideo(filters, k)
      {
        if filters[k].videoPid != -1 {
          return filters[k].videoPid, k;
        }
        k := k + 1;
      }
      return -1, k;
    }

    method GetRecordAudioPid() returns (pid: Pid, k: nat)
      ensures pid == AudioPid(filters) && k == FirstAudio(filters, 0)
    {
      k := 0;
      while k < |filters|
        invariant k <= |filters| && FirstAudio(filters, 0) == FirstAudio(filters, k)
      {
        if filters[k].audioPid != -1 {
          return filters[k].audioPid, k;
        }
        k := k + 1;
      }
      return -1, k;
    }

    // The search that the sender and the dispatcher both make.
    method ChooseFilter() returns (it: nat)
      requires filters != []
      ensures it == Chosen(filters)
    {
      var _, v := GetRecordVideoPid();
      if v < |filters| {
        return v;
      }
      var _, a := GetRecordAudioPid();
      return if a < |filters| then a else 0;
    }

    method SendFrontendInputToRecord(data: seq<Byte>)
      modifies this`filters
      ensures filters == Append(old(filters), data)
    {
      if |filters| == 0 {
        return;
      }
      var it := ChooseFilter();
      filters := filters[it := filters[it].(output := filters[it].output + data)];
    }

    method SendWithOffset(data: seq<Byte>, pid: Pid, at: nat, index: Index)
      modifies this`filters
      ensures filters == Mark(Append(old(filters), data), pid, at, index)
    {
      SendFrontendInputToRecord(data);
      ghost var fs := filters;
      var it := 0;
      while it < |filters|
        invariant it <= |filters| == |fs|
        invariant forall k :: 0 <= k < it ==> filters[k] == MarkOne(fs[k], pid, at, index)
        invariant forall k :: it <= k < |fs| ==> filters[k] == fs[k]
      {
        if pid == filters[it].tpid {
          filters := filters[it := filters[it].(offset := at, index := index)];
        }
        it := it + 1;
      }
    }

    method StartRecordFilterDispatcher(pusi: bool, accepts: bool)
      modifies this`filters, this`events
      ensures S() == Dispatch(old(S()), pusi, accepts)
    {
      if |filters| == 0 {
        return;
      }
      var it := ChooseFilter();
      var f := filters[it];
      if f.output != [] && !accepts {
        filters := filters[it := f.(output := [])];
        return;
      }
      events := events + [Event(pusi, f.offset, f.index, f.output, total)];
      filters := filters[it := f.(output := [], offset := NO_OFFSET, index := Index(f.index.pts, false, false))];
    }

    // The head of the record thread's loop.
    method ChooseMode() returns (pusi: bool)
      modifies this`videoPid, this`audioPid
      ensures (S(), pusi) == Mode(old(S()))
    {
      var video, _ := GetRecordVideoPid();
      if video != -1 {
        videoPid := video;
        return true;
      }
      var audio, _ := GetRecordAudioPid();
      if audio != -1 {
        audioPid := audio;
        return true;
      }
      return false;
    }

    // The body of the record thread's loop.
    method RecordOnce(data: seq<Byte>, index: Index, accepts: bool)
      modifies this
      ensures S() == Next(old(S()), Read(data, index, accepts))
    {
      var pusi := ChooseMode();
      if |data| == 0 {
        return;
      }
      if !pusi {
        SendFrontendInputToRecord(data);
        StartRecordFilterDispatcher(false, accepts);
      } else {
        if videoPid != -1 {
          SendWithOffset(data, videoPid, offset, index);
          StartRecordFilterDispatcher(true, accepts);
        } else if audioPid != -1 {
          SendWithOffset(data, audioPid, offset, index);
          StartRecordFilterDispatcher(true, accepts);
        }
        offset := (offset + |data|) % 0x1_0000_0000_0000_0000;
        total := total + |data|;
      }
    }
  }
}
