/**
 The ES container that the playback DVR accepts: a text header, one text line per frame, then all
 video bytes, then all audio bytes. `ProcessEs` is the parser; the second half of the module is the
 printer, and the theorem that printing and then parsing gives back the frames.
 */
module EsContainer {
  import opened Options

  // int8_t, the element type of the playback queue.
  type Byte = x: int | -128 <= x < 128

  const INT_MAX := 0x7fff_ffff
  const INT_MIN := -0x8000_0000
  const COMMA: Byte := 44
  const NEWLINE: Byte := 10
  const COLON: Byte := 58
  const SPACE: Byte := 32
  const LETTER_A: Byte := 97
  const LETTER_E: Byte := 101
  const LETTER_L: Byte := 108
  const LETTER_M: Byte := 109
  const LETTER_N: Byte := 110
  const LETTER_P: Byte := 112
  const LETTER_S: Byte := 115
  const LETTER_T: Byte := 116
  const LETTER_V: Byte := 118
  const CAPITAL_A: Byte := 65
  const CAPITAL_V: Byte := 86

  // One entry of `esMeta`.
  datatype FrameMeta = FrameMeta(isAudio: bool, startIndex: int, len: int, pts: int)

  // What a media filter receives for one frame.
  datatype Delivery = Delivery(pid: int, data: seq<Byte>, pts: int)

  // `Undefined` stands for every run in which the original leaves the buffer, the frame table or the
  // range of its C integers.
  datatype Outcome = Delivered(frames: seq<Delivery>) | Rejected | Undefined

  // The local variables of the header loop, apart from its index.
  datatype Header = Header(
    meta: int, total: int, videoSize: int, audioSize: int, videoPid: int, audioPid: int,
    es: seq<FrameMeta>, videoPtr: int, audioPtr: int, count: nat)

  datatype Step = Next(i: nat, h: Header) | Reject | Fault
  datatype HeaderOutcome = Done(h: Header) | Bad | Broken

  predicate IsInt(x: int) {
    INT_MIN <= x <= INT_MAX
  }

  predicate IsEnd(b: Byte) {
    b == COMMA || b == NEWLINE
  }

  function ToUint64(x: int): int {
    if x < 0 then x + 0x1_0000_0000_0000_0000 else x
  }

  // The conversion to `uint64_t` keeps a time stamp modulo 2 to the 64th.
  lemma ToUint64Exactly(x: int, y: int)
    requires IsInt(x)
    ensures ToUint64(x) == y <==> 0 <= y < 0x1_0000_0000_0000_0000 && (y - x) % 0x1_0000_0000_0000_0000 == 0
  {
    if 0 <= y < 0x1_0000_0000_0000_0000 && (y - x) % 0x1_0000_0000_0000_0000 == 0 {
      var q := (y - x) / 0x1_0000_0000_0000_0000;
      assert y - x == q * 0x1_0000_0000_0000_0000;
      assert q == 0 || q == 1;
    }
  }

  // The bytes of the format, as characters.
  lemma Characters()
    ensures COMMA == ',' as int && NEWLINE == '\n' as int && COLON == ':' as int && SPACE == ' ' as int
    ensures LETTER_A == 'a' as int && LETTER_V == 'v' as int && CAPITAL_A == 'A' as int && CAPITAL_V == 'V' as int
    ensures LETTER_M == 'm' as int && LETTER_L == 'l' as int && LETTER_P == 'p' as int
    ensures LETTER_E == 'e' as int && LETTER_N == 'n' as int && LETTER_T == 't' as int && LETTER_S == 's' as int
  {
  }

  // ---------- the parser ----------

  function ReadValue(data: seq<Byte>, index: nat, value: int): (r: Option<(nat, int)>)
    ensures r.Some? ==> index <= r.value.0 < |data| && IsEnd(data[r.value.0])
    decreases |data| - index
  {
    if index >= |data| then None
    else if IsEnd(data[index]) then Some((index, value))
    else
      var next := data[index] - 48 + value * 10;
      if IsInt(value * 10) && IsInt(next) then ReadValue(data, index + 1, next) else None
  }

  method GetMetaDataValue(data: seq<Byte>, index: nat, value: int) returns (r: Option<(nat, int)>)
    ensures r == ReadValue(data, index + 2, value)
  {
    var i, v := index + 2, value;
    while i < |data| && !IsEnd(data[i])
      invariant ReadValue(data, i, v) == ReadValue(data, index + 2, value)
    {
      var next := data[i] - 48 + v * 10;
      if !IsInt(v * 10) || !IsInt(next) {
        return None;
      }
      i, v := i + 1, next;
    }
    return if i < |data| then Some((i, v)) else None;
  }

  // `vector::resize`: keeps a prefix, or pads with value-initialised entries.
  function Resize(es: seq<FrameMeta>, n: nat): (r: seq<FrameMeta>)
    ensures |r| == n
    ensures forall k :: 0 <= k < n ==> r[k] == if k < |es| then es[k] else FrameMeta(false, 0, 0, 0)
  {
    if n <= |es| then es[..n] else es + seq(n - |es|, _ => FrameMeta(false, 0, 0, 0))
  }

  function FrameStep(data: seq<Byte>, i: nat, h: Header): Step
    requires i < |data|
  {
    if i + 1 >= |data| then Fault
    else if data[i + 1] != COMMA then Reject
    else if h.count >= |h.es| then Fault
    else
      match ReadValue(data, i + 7, 0)
      case None => Fault
      case Some((j, len)) =>
        var isAudio := data[i] == LETTER_A;
        var start := if isAudio then h.audioPtr else h.videoPtr;
        if !IsInt(start + len) then Fault else
        match ReadValue(data, j + 6, 0)
        case None => Fault
        case Some((k, pts)) =>
          var es := h.es[h.count := FrameMeta(isAudio, start, len, pts)];
          var h' := h.(es := es, count := h.count + 1);
          Next(k + 1, if isAudio then h'.(audioPtr := start + len) else h'.(videoPtr := start + len))
  }

  function PidStep(data: seq<Byte>, i: nat, h: Header): Step
    requires i < |data|
  {
    if i + 1 >= |data| then Fault
    else if data[i + 1] == LETTER_A then
      match ReadValue(data, i + 3, h.audioPid)
      case None => Fault
      case Some((j, v)) => Next(j + 1, h.(audioPid := v))
    else if data[i + 1] == LETTER_V then
      match ReadValue(data, i + 3, h.videoPid)
      case None => Fault
      case Some((j, v)) => Next(j + 1, h.(videoPid := v))
    else Next(i + 2, h)
  }

  function FieldStep(data: seq<Byte>, i: nat, h: Header): (r: Step)
    requires i < |data|
    ensures r.Next? ==> i < r.i
  {
    var b := data[i];
    if b == LETTER_M then
      match ReadValue(data, i + 2, 0)
      case None => Fault
      case Some((j, v)) => Next(j + 1, h.(meta := v, videoPtr := v))
    else if b == LETTER_L then
      match ReadValue(data, i + 2, h.total)
      case None => Fault
      case Some((j, v)) => if v < 0 then Fault else Next(j + 1, h.(total := v, es := Resize(h.es, v)))
    else if b == CAPITAL_V then
      match ReadValue(data, i + 2, h.videoSize)
      case None => Fault
      case Some((j, v)) =>
        if IsInt(h.meta + v) then Next(j + 1, h.(videoSize := v, audioPtr := h.meta + v)) else Fault
    else if b == CAPITAL_A then
      match ReadValue(data, i + 2, h.audioSize)
      case None => Fault
      case Some((j, v)) => Next(j + 1, h.(audioSize := v))
    else if b == LETTER_P then PidStep(data, i, h)
    else Next(i + 1, h)
  }

  // One iteration of the header loop.
  function HeaderStep(data: seq<Byte>, i: nat, h: Header): (r: Step)
    requires i < |data|
    ensures r.Next? ==> i < r.i
  {
    if data[i] == LETTER_V || data[i] == LETTER_A then FrameStep(data, i, h) else FieldStep(data, i, h)
  }

  function ParseHeader(data: seq<Byte>, i: nat, h: Header): HeaderOutcome
    decreases |data| - i
  {
    if i >= h.meta then Done(h)
    else if i >= |data| then Broken
    else
      match HeaderStep(data, i, h)
      case Reject => Bad
      case Fault => Broken
      case Next(j, h') => ParseHeader(data, j, h')
  }

  function Initial(size: nat): Header {
    Header(size, 0, 0, 0, 0, 0, [], 0, 0, 0)
  }

  // The slice of the buffer that frame `f` names, and the pid it is sent to.
  function Deliver(data: seq<Byte>, h: Header, f: FrameMeta): Option<Delivery> {
    if f.len < 0 || f.startIndex < 0 || f.startIndex + f.len > |data| then None
    else Some(Delivery(if f.isAudio then h.audioPid else h.videoPid,
                       data[f.startIndex..f.startIndex + f.len], ToUint64(f.pts)))
  }

  function DeliverFrom(data: seq<Byte>, h: Header, k: nat): Option<seq<Delivery>>
    decreases |h.es| - k
  {
    if k >= |h.es| then Some([])
    else
      match Deliver(data, h, h.es[k])
      case None => None
      case Some(d) =>
        match DeliverFrom(data, h, k + 1)
        case None => None
        case Some(rest) => Some([d] + rest)
  }

  function ParseEs(data: seq<Byte>): Outcome {
    match ParseHeader(data, 0, Initial(|data|))
    case Bad => Rejected
    case Broken => Undefined
    case Done(h) =>
      if h.count != h.total then Rejected
      else if !IsInt(h.meta + h.audioSize) || !IsInt(h.meta + h.audioSize + h.videoSize) then Undefined
      else if h.meta + h.audioSize + h.videoSize != |data| then Rejected
      else
        match DeliverFrom(data, h, 0)
        case None => Undefined
        case Some(ds) => Delivered(ds)
  }

  // ---------- handing the frames to the media filters ----------

  // A frame handed to the filter at some place of the DVR's filter map.
  datatype Update = Update(filter: nat, delivery: Delivery)

  // `filters` are the pids of the DVR's filters in the order of their ids.
  function RouteOne(filters: seq<int>, d: Delivery, i: nat): seq<Update>
    requires i <= |filters|
    decreases |filters| - i
  {
    if i == |filters| then [] else (if filters[i] == d.pid then [Update(i, d)] else []) + RouteOne(filters, d, i + 1)
  }

  // A recording hands out nothing.
  function Route(filters: seq<int>, ds: seq<Delivery>, isRecording: bool): seq<Update> {
    if ds == [] || isRecording then [] else Route(filters, ds[..|ds| - 1], false) + RouteOne(filters, ds[|ds| - 1], 0)
  }

  // What one filter receives, and the deliveries of one pid.
  function Received(us: seq<Update>, f: nat): seq<Delivery> {
    if us == [] then []
    else Received(us[..|us| - 1], f) + if us[|us| - 1].filter == f then [us[|us| - 1].delivery] else []
  }

  function OfPid(ds: seq<Delivery>, pid: int): seq<Delivery> {
    if ds == [] then [] else OfPid(ds[..|ds| - 1], pid) + if ds[|ds| - 1].pid == pid then [ds[|ds| - 1]] else []
  }

  lemma {:induction false} ReceivedConcat(a: seq<Update>, b: seq<Update>, f: nat)
    ensures Received(a + b, f) == Received(a, f) + Received(b, f)
    decreases |b|
  {
    if b == [] {
      assert a + b == a;
    } else {
      assert (a + b)[..|a + b| - 1] == a + b[..|b| - 1];
      ReceivedConcat(a, b[..|b| - 1], f);
    }
  }

  lemma {:induction false} RouteOneExact(filters: seq<int>, d: Delivery, i: nat, f: nat)
    requires i <= |filters| && f < |filters|
    ensures Received(RouteOne(filters, d, i), f) == if i <= f && filters[f] == d.pid then [d] else []
    decreases |filters| - i
  {
    if i == |filters| {
    } else {
      RouteOneExact(filters, d, i + 1, f);
      var here := if filters[i] == d.pid then [Update(i, d)] else [];
      ReceivedConcat(here, RouteOne(filters, d, i + 1), f);
      assert here != [] ==> here[..|here| - 1] == [];
    }
  }

  // Outside a recording every filter receives exactly the frames of its pid, in order; in one, nothing.
  lemma {:induction false} RoutedExactly(filters: seq<int>, ds: seq<Delivery>, isRecording: bool, f: nat)
    requires f < |filters|
    ensures Received(Route(filters, ds, isRecording), f) == if isRecording then [] else OfPid(ds, filters[f])
    decreases |ds|
  {
    if ds == [] || isRecording {
    } else {
      var before, d := ds[..|ds| - 1], ds[|ds| - 1];
      RoutedExactly(filters, before, false, f);
      RouteOneExact(filters, d, 0, f);
      ReceivedConcat(Route(filters, before, false), RouteOne(filters, d, 0), f);
    }
  }

  lemma Regroup<T>(a: seq<T>, b: seq<T>, c: seq<T>)
    ensures a + (b + c) == (a + b) + c
  {
  }

  method UpdateMediaFilters(filters: seq<int>, d: Delivery) returns (us: seq<Update>)
    ensures us == RouteOne(filters, d, 0)
  {
    us := [];
    var it := 0;
    while it < |filters|
      invariant it <= |filters| && us + RouteOne(filters, d, it) == RouteOne(filters, d, 0)
    {
      Regroup(us, if filters[it] == d.pid then [Update(it, d)] else [], RouteOne(filters, d, it + 1));
      if d.pid == filters[it] {
        us := us + [Update(it, d)];
      } else {
        assert us + [] == us;
      }
      it := it + 1;
    }
    assert us + [] == us;
  }

  // ---------- the parser's loops ----------

  method FrameSwitch(data: seq<Byte>, i: nat, h: Header) returns (r: Step)
    requires i < |data|
    ensures r == FrameStep(data, i, h)
  {
    if i + 1 >= |data| {
      return Fault;
    }
    if data[i + 1] != COMMA {
      return Reject;
    }
    if h.count >= |h.es| {
      return Fault;
    }
    var f := FrameMeta(data[i] == LETTER_A, 0, 0, 0);
    var len := GetMetaDataValue(data, i + 5, f.len);
    if len.None? {
      return Fault;
    }
    f := f.(len := len.value.1);
    var next := h;
    if f.isAudio {
      f := f.(startIndex := h.audioPtr);
      next := next.(audioPtr := h.audioPtr + f.len);
    } else {
      f := f.(startIndex := h.videoPtr);
      next := next.(videoPtr := h.videoPtr + f.len);
    }
    if !IsInt(f.startIndex + f.len) {
      return Fault;
    }
    var pts := GetMetaDataValue(data, len.value.0 + 4, f.pts);
    if pts.None? {
      return Fault;
    }
    f := f.(pts := pts.value.1);
    return Next(pts.value.0 + 1, next.(es := h.es[h.count := f], count := h.count + 1));
  }

  method HeaderSwitch(data: seq<Byte>, i: nat, h: Header) returns (r: Step)
    requires i < |data|
    ensures r == HeaderStep(data, i, h)
  {
    var v: Option<(nat, int)>;
    match data[i] {
      case 109 =>
        v := GetMetaDataValue(data, i, 0);
        return if v.None? then Fault else Next(v.value.0 + 1, h.(meta := v.value.1, videoPtr := v.value.1));
      case 108 =>
        v := GetMetaDataValue(data, i, h.total);
        if v.None? || v.value.1 < 0 {
          return Fault;
        }
        return Next(v.value.0 + 1, h.(total := v.value.1, es := Resize(h.es, v.value.1)));
      case 86 =>
        v := GetMetaDataValue(data, i, h.videoSize);
        if v.None? || !IsInt(h.meta + v.value.1) {
          return Fault;
        }
        return Next(v.value.0 + 1, h.(videoSize := v.value.1, audioPtr := h.meta + v.value.1));
      case 65 =>
        v := GetMetaDataValue(data, i, h.audioSize);
        return if v.None? then Fault else Next(v.value.0 + 1, h.(audioSize := v.value.1));
      case 112 =>
        if i + 1 >= |data| {
          return Fault;
        }
        if data[i + 1] == LETTER_A {
          v := GetMetaDataValue(data, i + 1, h.audioPid);
          return if v.None? then Fault else Next(v.value.0 + 1, h.(audioPid := v.value.1));
        } else if data[i + 1] == LETTER_V {
          v := GetMetaDataValue(data, i + 1, h.videoPid);
          return if v.None? then Fault else Next(v.value.0 + 1, h.(videoPid := v.value.1));
        }
        return Next(i + 2, h);
      case 118 => r := FrameSwitch(data, i, h);
      case 97 => r := FrameSwitch(data, i, h);
      case _ => return Next(i + 1, h);
    }
  }

  // The header loop and the checks behind it.
  method ReadHeaderLoop(data: seq<Byte>) returns (r: HeaderOutcome)
    ensures r == ParseHeader(data, 0, Initial(|data|))
  {
    var i, h := 0, Initial(|data|);
    while i < h.meta
      invariant ParseHeader(data, i, h) == ParseHeader(data, 0, Initial(|data|))
      decreases |data| - i
    {
      if i >= |data| {
        return Broken;
      }
      var s := HeaderSwitch(data, i, h);
      match s {
        case Reject => return Bad;
        case Fault => return Broken;
        case Next(j, h') => i, h := j, h';
      }
    }
    return Done(h);
  }

  // The loop over the frames.
  method SendFrames(data: seq<Byte>, h: Header, filters: seq<int>, isRecording: bool)
    returns (out: Option<seq<Delivery>>, us: seq<Update>)
    ensures out == DeliverFrom(data, h, 0)
    ensures out.Some? ==> us == Route(filters, out.value, isRecording)
  {
    var ds: seq<Delivery>, k := [], 0;
    us := [];
    assert DeliverFrom(data, h, 0).Some? ==> ds + DeliverFrom(data, h, 0).value == DeliverFrom(data, h, 0).value;
    while k < |h.es|
      invariant k <= |h.es| && us == Route(filters, ds, isRecording)
      invariant var rest := DeliverFrom(data, h, k);
                DeliverFrom(data, h, 0) == if rest.None? then None else Some(ds + rest.value)
    {
      var d := Deliver(data, h, h.es[k]);
      if d.None? {
        return None, us;
      }
      ghost var rest := DeliverFrom(data, h, k + 1);
      assert rest.Some? ==> ds + ([d.value] + rest.value) == (ds + [d.value]) + rest.value;
      assert (ds + [d.value])[..|ds|] == ds;
      if !isRecording {
        var more := UpdateMediaFilters(filters, d.value);
        us := us + more;
      }
      ds, k := ds + [d.value], k + 1;
    }
    assert ds + [] == ds;
    return Some(ds), us;
  }

  // `processEsDataOnPlayback`: the outcome, and what the media filters are given.
  method ProcessEs(data: seq<Byte>, filters: seq<int>, isRecording: bool) returns (r: Outcome, us: seq<Update>)
    ensures r == ParseEs(data)
    ensures r.Delivered? ==> us == Route(filters, r.frames, isRecording)
  {
    us := [];
    var header := ReadHeaderLoop(data);
    match header {
      case Bad => return Rejected, us;
      case Broken => return Undefined, us;
      case Done(h) =>
        if h.count != h.total {
          return Rejected, us;
        }
        if !IsInt(h.meta + h.audioSize) || !IsInt(h.meta + h.audioSize + h.videoSize) {
          return Undefined, us;
        }
        if h.meta + h.audioSize + h.videoSize != |data| {
          return Rejected, us;
        }
        var frames;
        frames, us := SendFrames(data, h, filters, isRecording);
        r := if frames.None? then Undefined else Delivered(frames.value);
    }
  }

  // ---------- the printer ----------

  // What one printed piece of the header means. `Skip` is any byte that starts no field, `OtherP` a `p` with a
  // byte behind it that makes it no pid.
  datatype Item =
    | Meta(digits: seq<Byte>, end: Byte)
    | Total(digits: seq<Byte>, end: Byte)
    | VideoSize(digits: seq<Byte>, end: Byte)
    | AudioSize(digits: seq<Byte>, end: Byte)
    | VideoPid(digits: seq<Byte>, end: Byte)
    | AudioPid(digits: seq<Byte>, end: Byte)
    | Skip(byte: Byte)
    | OtherP(byte: Byte)

  datatype Frame = Frame(isAudio: bool, content: seq<Byte>, lenDigits: seq<Byte>, ptsDigits: seq<Byte>)

  function Fold(v: int, ds: seq<Byte>): int
    decreases |ds|
  {
    if ds == [] then v else Fold(v * 10 + ds[0] - 48, ds[1..])
  }

  predicate AllDigits(ds: seq<Byte>) {
    forall k :: 0 <= k < |ds| ==> 48 <= ds[k] <= 57
  }

  predicate IsNumber(ds: seq<Byte>) {
    AllDigits(ds) && Fold(0, ds) <= INT_MAX
  }

  function PrintItem(it: Item): seq<Byte> {
    match it
    case Meta(ds, e) => [LETTER_M, COLON] + (ds + [e])
    case Total(ds, e) => [LETTER_L, COLON] + (ds + [e])
    case VideoSize(ds, e) => [CAPITAL_V, COLON] + (ds + [e])
    case AudioSize(ds, e) => [CAPITAL_A, COLON] + (ds + [e])
    case VideoPid(ds, e) => [LETTER_P, LETTER_V, COLON] + (ds + [e])
    case AudioPid(ds, e) => [LETTER_P, LETTER_A, COLON] + (ds + [e])
    case Skip(b) => [b]
    case OtherP(b) => [LETTER_P, b]
  }

  const LEN_TAG: seq<Byte> := [COMMA, SPACE, LETTER_L, LETTER_E, LETTER_N, COLON]
  const PTS_TAG: seq<Byte> := [SPACE, LETTER_P, LETTER_T, LETTER_S, COLON]

  function PrintLine(f: Frame): seq<Byte> {
    ([if f.isAudio then LETTER_A else LETTER_V] + LEN_TAG) +
    ((f.lenDigits + [COMMA]) + (PTS_TAG + (f.ptsDigits + [NEWLINE])))
  }

  function PrintHeader(items: seq<Item>): seq<Byte> {
    if items == [] then [] else PrintItem(items[0]) + PrintHeader(items[1..])
  }

  function PrintLines(fs: seq<Frame>): seq<Byte> {
    if fs == [] then [] else PrintLine(fs[0]) + PrintLines(fs[1..])
  }

  // All bytes of one kind, in frame order.
  function Payload(fs: seq<Frame>, audio: bool): seq<Byte> {
    if fs == [] then []
    else if fs[0].isAudio == audio then fs[0].content + Payload(fs[1..], audio)
    else Payload(fs[1..], audio)
  }

  function Metadata(items: seq<Item>, fs: seq<Frame>): seq<Byte> {
    PrintHeader(items) + PrintLines(fs)
  }

  function Print(items: seq<Item>, fs: seq<Frame>): seq<Byte> {
    Metadata(items, fs) + (Payload(fs, false) + Payload(fs, true))
  }

  // ---------- the header that announces the frames ----------

  datatype Kind = KMeta | KTotal | KVideoSize | KAudioSize | KVideoPid | KAudioPid

  // The values a header must announce.
  datatype Plan = Plan(size: nat, meta: nat, total: nat, videoSize: nat, audioSize: nat, videoPid: nat, audioPid: nat)

  const ALL_KINDS := {KMeta, KTotal, KVideoSize, KAudioSize, KVideoPid, KAudioPid}

  predicate Announces(ds: seq<Byte>, e: Byte, value: int) {
    IsNumber(ds) && IsEnd(e) && Fold(0, ds) == value
  }

  function KindOf(it: Item): set<Kind> {
    match it
    case Meta(_, _) => {KMeta}
    case Total(_, _) => {KTotal}
    case VideoSize(_, _) => {KVideoSize}
    case AudioSize(_, _) => {KAudioSize}
    case VideoPid(_, _) => {KVideoPid}
    case AudioPid(_, _) => {KAudioPid}
    case Skip(_) => {}
    case OtherP(_) => {}
  }

  predicate ItemOk(it: Item, p: Plan, seen: set<Kind>) {
    match it
    case Meta(ds, e) => Announces(ds, e, p.meta)
    case Total(ds, e) => Announces(ds, e, p.total)
    case VideoSize(ds, e) => KMeta in seen && Announces(ds, e, p.videoSize)
    case AudioSize(ds, e) => Announces(ds, e, p.audioSize)
    case VideoPid(ds, e) => Announces(ds, e, p.videoPid)
    case AudioPid(ds, e) => Announces(ds, e, p.audioPid)
    case Skip(b) => StartsNothing(b)
    case OtherP(b) => b != LETTER_A && b != LETTER_V
  }

  predicate StartsNothing(b: Byte) {
    b !in {LETTER_M, LETTER_L, CAPITAL_V, CAPITAL_A, LETTER_P, LETTER_V, LETTER_A}
  }

  // Every field exactly once, `m` before `V`, anything that starts no field in between.
  predicate HeaderOk(items: seq<Item>, p: Plan, seen: set<Kind>) {
    if items == [] then seen == ALL_KINDS
    else
      KindOf(items[0]) !! seen && ItemOk(items[0], p, seen) &&
      HeaderOk(items[1..], p, seen + KindOf(items[0]))
  }

  predicate FrameOk(f: Frame) {
    Announces(f.lenDigits, COMMA, |f.content|) && IsNumber(f.ptsDigits)
  }

  predicate FramesOk(fs: seq<Frame>) {
    forall k :: 0 <= k < |fs| ==> FrameOk(fs[k])
  }

  function PlanOf(items: seq<Item>, fs: seq<Frame>, videoPid: nat, audioPid: nat): Plan {
    Plan(|Print(items, fs)|, |Metadata(items, fs)|, |fs|, |Payload(fs, false)|, |Payload(fs, true)|, videoPid, audioPid)
  }

  // A container whose announced sizes are its real ones and whose size is a C int.
  predicate ContainerOk(items: seq<Item>, fs: seq<Frame>, videoPid: nat, audioPid: nat) {
    && HeaderOk(items, PlanOf(items, fs, videoPid, audioPid), {})
    && FramesOk(fs)
    && |Print(items, fs)| <= INT_MAX
  }

  // ---------- one printed piece, one iteration ----------

  // `s` stands in `data` at position `i`.
  predicate At(data: seq<Byte>, i: nat, s: seq<Byte>) {
    i + |s| <= |data| && forall k {:trigger s[k]} :: 0 <= k < |s| ==> data[i + k] == s[k]
  }

  lemma AtSplit(data: seq<Byte>, i: nat, a: seq<Byte>, b: seq<Byte>)
    requires At(data, i, a + b)
    ensures At(data, i, a) && At(data, i + |a|, b)
    ensures a != [] ==> data[i] == a[0]
  {
    forall k | 0 <= k < |a| ensures data[i + k] == a[k] {
      assert (a + b)[k] == a[k];
    }
    forall k | 0 <= k < |b| ensures data[i + |a| + k] == b[k] {
      assert (a + b)[|a| + k] == b[k];
    }
  }

  lemma {:induction false} FoldGrows(v: nat, ds: seq<Byte>)
    requires AllDigits(ds)
    ensures v <= Fold(v, ds)
    decreases |ds|
    ensures ds != [] ==> v * 10 + ds[0] - 48 <= Fold(v, ds)
  {
    if ds == [] {
    } else {
      FoldGrows(v * 10 + ds[0] - 48, ds[1..]);
    }
  }

  // The digit loop reads a printed number back.
  lemma {:induction false} ReadsNumber(data: seq<Byte>, i: nat, v: nat, ds: seq<Byte>, e: Byte)
    requires AllDigits(ds)
    requires Fold(v, ds) <= INT_MAX && IsEnd(e)
    requires At(data, i, ds + [e])
    ensures ReadValue(data, i, v) == Some((i + |ds|, Fold(v, ds)))
    decreases |ds|
  {
    if ds == [] {
      assert (ds + [e])[0] == e;
    } else {
      assert ds + [e] == [ds[0]] + (ds[1..] + [e]);
      AtSplit(data, i, [ds[0]], ds[1..] + [e]);
      FoldGrows(v, ds);
      ReadsNumber(data, i + 1, v * 10 + ds[0] - 48, ds[1..], e);
    }
  }

  // The bytes before an end, without an end among them.
  predicate NoEnd(ds: seq<Byte>) {
    forall k :: 0 <= k < |ds| ==> !IsEnd(ds[k])
  }

  // No multiplication by ten and no subtraction on the way to the value leaves the range of a C int.
  predicate FoldFits(v: int, ds: seq<Byte>) {
    forall k :: 0 <= k < |ds| ==>
      var tens := Fold(v, ds[..k]) * 10;
      -0x8000_0000 <= tens <= 0x7fff_ffff && -0x8000_0000 <= tens + ds[k] - 48 <= 0x7fff_ffff
  }

  lemma {:induction false} FoldFitsOne(v: int, ds: seq<Byte>)
    requires ds != []
    ensures FoldFits(v, ds) <==> IsInt(v * 10) && IsInt(v * 10 + ds[0] - 48) && FoldFits(v * 10 + ds[0] - 48, ds[1..])
  {
    var next, tail := v * 10 + ds[0] - 48, ds[1..];
    assert ds[..0] == [];
    forall k | 0 <= k < |tail| ensures Fold(v, ds[..k + 1]) == Fold(next, tail[..k]) && ds[k + 1] == tail[k] {
      assert ds[..k + 1][0] == ds[0] && ds[..k + 1][1..] == tail[..k];
    }
    if IsInt(v * 10) && IsInt(next) && FoldFits(next, tail) {
      forall k | 0 <= k < |ds| ensures IsInt(Fold(v, ds[..k]) * 10) && IsInt(Fold(v, ds[..k]) * 10 + ds[k] - 48) {
        if k > 0 {
          assert Fold(v, ds[..k - 1 + 1]) == Fold(next, tail[..k - 1]);
        }
      }
    }
  }

  // The digit loop on any bytes, digits or not, up to an end: the value is theirs, read with a C int that does
  // not overflow, or the run is undefined.
  lemma {:induction false} ReadsValueExactly(data: seq<Byte>, i: nat, v: int, ds: seq<Byte>, e: Byte)
    requires NoEnd(ds) && IsEnd(e) && At(data, i, ds + [e])
    ensures ReadValue(data, i, v) == if FoldFits(v, ds) then Some((i + |ds|, Fold(v, ds))) else None
    decreases |ds|
  {
    if ds == [] {
      assert (ds + [e])[0] == e;
    } else {
      assert ds + [e] == [ds[0]] + (ds[1..] + [e]);
      AtSplit(data, i, [ds[0]], ds[1..] + [e]);
      FoldFitsOne(v, ds);
      ReadsValueExactly(data, i + 1, v * 10 + ds[0] - 48, ds[1..], e);
    }
  }

  // Without an end before the end of the buffer, the loop leaves the buffer or overflows.
  lemma {:induction false} NoEndNoValue(data: seq<Byte>, i: nat, v: int)
    requires forall k :: i <= k < |data| ==> !IsEnd(data[k])
    ensures ReadValue(data, i, v) == None
    decreases |data| - i
  {
    if i < |data| {
      NoEndNoValue(data, i + 1, v * 10 + data[i] - 48);
    }
  }

  // What a field's digits are appended to: `m` starts anew, the others go on from the variable's value.
  function Base(h: Header, it: Item): int {
    match it
    case Total(_, _) => h.total
    case VideoSize(_, _) => h.videoSize
    case AudioSize(_, _) => h.audioSize
    case VideoPid(_, _) => h.videoPid
    case AudioPid(_, _) => h.audioPid
    case _ => 0
  }

  // The effect of a field on the parser's variables, however often it has been read before.
  function Apply(h: Header, it: Item): Header {
    match it
    case Meta(ds, _) => h.(meta := Fold(0, ds), videoPtr := Fold(0, ds))
    case Total(ds, _) =>
      var total := Fold(h.total, ds);
      if total < 0 then h else h.(total := total, es := Resize(h.es, total))
    case VideoSize(ds, _) => h.(videoSize := Fold(h.videoSize, ds), audioPtr := h.meta + Fold(h.videoSize, ds))
    case AudioSize(ds, _) => h.(audioSize := Fold(h.audioSize, ds))
    case VideoPid(ds, _) => h.(videoPid := Fold(h.videoPid, ds))
    case AudioPid(ds, _) => h.(audioPid := Fold(h.audioPid, ds))
    case Skip(_) => h
    case OtherP(_) => h
  }

  // The parser can read the item: digits and an end, and no C int overflows.
  predicate Readable(h: Header, it: Item) {
    match it
    case Skip(b) => StartsNothing(b)
    case OtherP(b) => b != LETTER_A && b != LETTER_V
    case _ =>
      && AllDigits(it.digits) && IsEnd(it.end) && 0 <= Base(h, it) && Fold(Base(h, it), it.digits) <= INT_MAX
      && (it.VideoSize? ==> IsInt(h.meta + Fold(h.videoSize, it.digits)))
  }

  // The header variables after the fields in `seen`.
  predicate Follows(h: Header, p: Plan, seen: set<Kind>) {
    && h.meta == (if KMeta in seen then p.meta else p.size)
    && h.videoPtr == (if KMeta in seen then p.meta else 0)
    && h.total == (if KTotal in seen then p.total else 0)
    && |h.es| == h.total && h.count == 0
    && h.videoSize == (if KVideoSize in seen then p.videoSize else 0)
    && (KVideoSize in seen ==> h.audioPtr == p.meta + p.videoSize)
    && h.audioSize == (if KAudioSize in seen then p.audioSize else 0)
    && h.videoPid == (if KVideoPid in seen then p.videoPid else 0)
    && h.audioPid == (if KAudioPid in seen then p.audioPid else 0)
  }

  lemma {:induction false} ReadsField(data: seq<Byte>, i: nat, tag: seq<Byte>, ds: seq<Byte>, e: Byte, base: nat)
    requires AllDigits(ds) && IsEnd(e) && Fold(base, ds) <= INT_MAX && At(data, i, tag + (ds + [e]))
    ensures i + |tag + (ds + [e])| <= |data|
    ensures forall k :: 0 <= k < |tag| ==> data[i + k] == tag[k]
    ensures ReadValue(data, i + |tag|, base) == Some((i + |tag| + |ds|, Fold(base, ds))) && 0 <= Fold(base, ds)
  {
    AtSplit(data, i, tag, ds + [e]);
    ReadsNumber(data, i + |tag|, base, ds, e);
    FoldGrows(base, ds);
  }

  lemma AppliesItem(h: Header, it: Item, p: Plan, seen: set<Kind>)
    requires KindOf(it) !! seen && ItemOk(it, p, seen) && Follows(h, p, seen)
    ensures Follows(Apply(h, it), p, seen + KindOf(it))
  {
  }

  lemma PlanReadable(h: Header, it: Item, p: Plan, seen: set<Kind>)
    requires KindOf(it) !! seen && ItemOk(it, p, seen) && Follows(h, p, seen) && p.meta + p.videoSize <= INT_MAX
    ensures Readable(h, it)
  {
  }

  lemma ReadsPidItem(data: seq<Byte>, i: nat, h: Header, it: Item)
    requires Readable(h, it) && (it.VideoPid? || it.AudioPid?) && At(data, i, PrintItem(it))
    ensures i + 1 < |data| && data[i] == LETTER_P && PidStep(data, i, h) == Next(i + |PrintItem(it)|, Apply(h, it))
  {
    if it.VideoPid? {
      ReadsField(data, i, [LETTER_P, LETTER_V, COLON], it.digits, it.end, h.videoPid);
    } else {
      ReadsField(data, i, [LETTER_P, LETTER_A, COLON], it.digits, it.end, h.audioPid);
    }
    assert data[i + 0] == PrintItem(it)[0] && data[i + 1] == PrintItem(it)[1];
  }

  lemma ReadsSizeItem(data: seq<Byte>, i: nat, h: Header, it: Item)
    requires Readable(h, it) && (it.VideoSize? || it.AudioSize?) && At(data, i, PrintItem(it))
    ensures i < |data| && FieldStep(data, i, h) == Next(i + |PrintItem(it)|, Apply(h, it))
  {
    if it.VideoSize? {
      ReadsField(data, i, [CAPITAL_V, COLON], it.digits, it.end, h.videoSize);
    } else {
      ReadsField(data, i, [CAPITAL_A, COLON], it.digits, it.end, h.audioSize);
    }
    assert data[i + 0] == PrintItem(it)[0];
  }

  // One iteration of the header loop on any printed item that can be read, whatever was read before it.
  lemma ReadsItem(data: seq<Byte>, i: nat, h: Header, it: Item)
    requires Readable(h, it) && At(data, i, PrintItem(it))
    ensures i < |data| && HeaderStep(data, i, h) == Next(i + |PrintItem(it)|, Apply(h, it))
  {
    assert data[i + 0] == PrintItem(it)[0];
    match it {
      case Meta(ds, e) => ReadsField(data, i, [LETTER_M, COLON], ds, e, 0);
      case Total(ds, e) => ReadsField(data, i, [LETTER_L, COLON], ds, e, h.total);
      case VideoSize(_, _) => ReadsSizeItem(data, i, h, it);
      case AudioSize(_, _) => ReadsSizeItem(data, i, h, it);
      case Skip(b) =>
      case OtherP(b) => assert data[i + 1] == PrintItem(it)[1];
      case _ => ReadsPidItem(data, i, h, it);
    }
    assert FieldStep(data, i, h) == Next(i + |PrintItem(it)|, Apply(h, it));
  }

  lemma {:induction false} StepParses(data: seq<Byte>, i: nat, h: Header, j: nat, h': Header)
    requires i < |data| && i < h.meta && i < j && HeaderStep(data, i, h) == Next(j, h')
    ensures ParseHeader(data, i, h) == ParseHeader(data, j, h')
  {
  }

  lemma ItemLeads(data: seq<Byte>, i: nat, h: Header, it: Item, p: Plan, seen: set<Kind>) returns (j: nat, h': Header)
    requires KindOf(it) !! seen && ItemOk(it, p, seen) && Follows(h, p, seen)
    requires p.meta + p.videoSize <= INT_MAX
    requires At(data, i, PrintItem(it)) && i < h.meta
    ensures j == i + |PrintItem(it)| && Follows(h', p, seen + KindOf(it))
    ensures ParseHeader(data, i, h) == ParseHeader(data, j, h')
  {
    AppliesItem(h, it, p, seen);
    PlanReadable(h, it, p, seen);
    ReadsItem(data, i, h, it);
    StepParses(data, i, h, i + |PrintItem(it)|, Apply(h, it));
    return i + |PrintItem(it)|, Apply(h, it);
  }

  lemma PrintsSome(it: Item)
    ensures |PrintItem(it)| > 0
  {
  }

  // Before an item, with `rest` behind it, and after it.
  predicate Before(data: seq<Byte>, i: nat, h: Header, it: Item, rest: seq<Byte>, p: Plan, seen: set<Kind>) {
    && KindOf(it) !! seen && ItemOk(it, p, seen) && Follows(h, p, seen) && p.meta + p.videoSize <= INT_MAX
    && At(data, i, PrintItem(it) + rest) && i < h.meta
  }

  lemma HeaderLeads(data: seq<Byte>, i: nat, h: Header, it: Item, rest: seq<Byte>, p: Plan, seen: set<Kind>)
    returns (j: nat, h': Header, seen': set<Kind>)
    requires Before(data, i, h, it, rest, p, seen)
    ensures i < j && j + |rest| == i + |PrintItem(it) + rest| && At(data, j, rest)
    ensures seen' == seen + KindOf(it) && Follows(h', p, seen')
    ensures ParseHeader(data, i, h) == ParseHeader(data, j, h')
  {
    PrintsSome(it);
    AtSplit(data, i, PrintItem(it), rest);
    j, h' := ItemLeads(data, i, h, it, p, seen);
    seen' := seen + KindOf(it);
  }

  // Reading the whole header.
  lemma {:induction false} ReadsHeader(data: seq<Byte>, i: nat, h: Header, items: seq<Item>, p: Plan,
                                       seen: set<Kind>, end: nat, out: HeaderOutcome)
    returns (h': Header)
    requires HeaderOk(items, p, seen) && Follows(h, p, seen)
    requires p.meta + p.videoSize <= INT_MAX && |data| == p.size
    requires At(data, i, PrintHeader(items)) && end == i + |PrintHeader(items)| <= p.meta <= p.size
    requires out == ParseHeader(data, i, h)
    ensures Follows(h', p, ALL_KINDS) && out == ParseHeader(data, end, h')
    decreases |items|
  {
    if items == [] {
      return h;
    }
    PrintsSome(items[0]);
    var j, next, seen' := HeaderLeads(data, i, h, items[0], PrintHeader(items[1..]), p, seen);
    h' := ReadsHeader(data, j, next, items[1..], p, seen', end, out);
  }

  // ---------- the frame lines ----------

  lemma {:induction false} PayloadSplits(a: seq<Frame>, b: seq<Frame>, audio: bool)
    ensures Payload(a + b, audio) == Payload(a, audio) + Payload(b, audio)
  {
    if a == [] {
      assert a + b == b;
    } else {
      assert (a + b)[1..] == a[1..] + b;
      PayloadSplits(a[1..], b, audio);
    }
  }

  // Frame `k`'s content stands between the same-kind frames before and after it.
  lemma {:induction false} PayloadAround(fs: seq<Frame>, k: nat)
    requires k < |fs|
    ensures Payload(fs, fs[k].isAudio) ==
            Payload(fs[..k], fs[k].isAudio) + (fs[k].content + Payload(fs[k + 1..], fs[k].isAudio))
    ensures Payload(fs[..k + 1], fs[k].isAudio) == Payload(fs[..k], fs[k].isAudio) + fs[k].content
    ensures Payload(fs[..k + 1], !fs[k].isAudio) == Payload(fs[..k], !fs[k].isAudio)
  {
    assert fs == fs[..k] + fs[k..] && fs[..k + 1] == fs[..k] + [fs[k]];
    PayloadSplits(fs[..k], fs[k..], fs[k].isAudio);
    PayloadSplits(fs[..k], [fs[k]], true);
    PayloadSplits(fs[..k], [fs[k]], false);
  }

  // Where frame `k` starts: the prefix sum of its kind, from where that kind begins.
  function StartAt(fs: seq<Frame>, k: nat, videoBase: nat, audioBase: nat): nat
    requires k < |fs|
  {
    |Payload(fs[..k], fs[k].isAudio)| + if fs[k].isAudio then audioBase else videoBase
  }

  function Start(fs: seq<Frame>, k: nat, meta: nat): nat
    requires k < |fs|
  {
    StartAt(fs, k, meta, meta + |Payload(fs, false)|)
  }

  // The table entry of frame `k`, by what the header announces.
  function Entry(fs: seq<Frame>, k: nat, p: Plan): FrameMeta
    requires k < |fs|
  {
    FrameMeta(fs[k].isAudio, StartAt(fs, k, p.meta, p.meta + p.videoSize), |fs[k].content|, Fold(0, fs[k].ptsDigits))
  }

  // The two numbers of a printed line, where `FrameStep` looks for them.
  lemma LineNumbers(data: seq<Byte>, i: nat, f: Frame)
    requires FrameOk(f) && At(data, i, PrintLine(f))
    ensures i + 1 < |data| && data[i] == (if f.isAudio then LETTER_A else LETTER_V) && data[i + 1] == COMMA
    ensures ReadValue(data, i + 7, 0) == Some((i + 7 + |f.lenDigits|, |f.content|))
    ensures ReadValue(data, i + 13 + |f.lenDigits|, 0) ==
            Some((i + 13 + |f.lenDigits| + |f.ptsDigits|, Fold(0, f.ptsDigits)))
    ensures |PrintLine(f)| == 14 + |f.lenDigits| + |f.ptsDigits|
  {
    var head := [if f.isAudio then LETTER_A else LETTER_V] + LEN_TAG;
    var tail := PTS_TAG + (f.ptsDigits + [NEWLINE]);
    AtSplit(data, i, head, (f.lenDigits + [COMMA]) + tail);
    assert data[i + 1] == head[1];
    AtSplit(data, i + |head|, f.lenDigits + [COMMA], tail);
    ReadsNumber(data, i + |head|, 0, f.lenDigits, COMMA);
    var j := i + |head| + |f.lenDigits| + 1;
    AtSplit(data, j, PTS_TAG, f.ptsDigits + [NEWLINE]);
    ReadsNumber(data, j + |PTS_TAG|, 0, f.ptsDigits, NEWLINE);
  }

  // The effect of one frame line.
  function AddFrame(h: Header, f: Frame): Header
    requires h.count < |h.es|
  {
    var start := if f.isAudio then h.audioPtr else h.videoPtr;
    var end := start + |f.content|;
    var meta := FrameMeta(f.isAudio, start, |f.content|, Fold(0, f.ptsDigits));
    var h' := h.(es := h.es[h.count := meta], count := h.count + 1);
    if f.isAudio then h'.(audioPtr := end) else h'.(videoPtr := end)
  }

  lemma ReadsLine(data: seq<Byte>, i: nat, h: Header, f: Frame)
    requires FrameOk(f) && h.count < |h.es| && At(data, i, PrintLine(f))
    requires IsInt((if f.isAudio then h.audioPtr else h.videoPtr) + |f.content|)
    requires i < h.meta
    ensures i < |data| && |PrintLine(f)| > 0
    ensures ParseHeader(data, i, h) == ParseHeader(data, i + |PrintLine(f)|, AddFrame(h, f))
  {
    LineNumbers(data, i, f);
    assert FrameStep(data, i, h) == Next(i + |PrintLine(f)|, AddFrame(h, f));
  }

  // A frame that would move its kind's pointer out of the range of a C int ends the run.
  lemma FrameOverflows(data: seq<Byte>, i: nat, h: Header, f: Frame)
    requires FrameOk(f) && h.count < |h.es| && At(data, i, PrintLine(f)) && i < h.meta
    requires (if f.isAudio then h.audioPtr else h.videoPtr) + |f.content| > 0x7fff_ffff
    ensures ParseHeader(data, i, h) == Broken
  {
    LineNumbers(data, i, f);
    var start := if f.isAudio then h.audioPtr else h.videoPtr;
    assert !IsInt(start + |f.content|) && (data[i] == LETTER_A <==> f.isAudio);
    assert FrameStep(data, i, h) == Fault;
  }

  // And so does a video size that would move the pointer to the audio bytes there.
  lemma VideoSizeOverflows(data: seq<Byte>, i: nat, h: Header, ds: seq<Byte>, e: Byte)
    requires AllDigits(ds) && IsEnd(e) && 0 <= h.videoSize && Fold(h.videoSize, ds) <= INT_MAX
    requires At(data, i, PrintItem(VideoSize(ds, e))) && i < h.meta && h.meta + Fold(h.videoSize, ds) > 0x7fff_ffff
    ensures ParseHeader(data, i, h) == Broken
  {
    ReadsField(data, i, [CAPITAL_V, COLON], ds, e, h.videoSize);
    assert data[i + 0] == PrintItem(VideoSize(ds, e))[0];
  }

  // The parser's variables after the first `k` frame lines.
  ghost predicate LinesRead(h: Header, p: Plan, fs: seq<Frame>, k: nat) {
    && k <= |fs| && h.count == k && |h.es| == h.total == p.total
    && h.meta == p.meta && h.videoSize == p.videoSize && h.audioSize == p.audioSize
    && h.videoPid == p.videoPid && h.audioPid == p.audioPid
    && h.videoPtr == p.meta + |Payload(fs[..k], false)|
    && h.audioPtr == p.meta + p.videoSize + |Payload(fs[..k], true)|
    && forall j :: 0 <= j < k && j < |h.es| ==> h.es[j] == Entry(fs, j, p)
  }

  // No pointer leaves the range of a C int.
  predicate PointersFit(fs: seq<Frame>, p: Plan) {
    p.meta + |Payload(fs, false)| <= INT_MAX && p.meta + p.videoSize + |Payload(fs, true)| <= INT_MAX
  }

  lemma LineKeeps(h: Header, p: Plan, fs: seq<Frame>, k: nat)
    requires k < |fs| && k < p.total && LinesRead(h, p, fs, k) && PointersFit(fs, p)
    ensures LinesRead(AddFrame(h, fs[k]), p, fs, k + 1)
    ensures IsInt((if fs[k].isAudio then h.audioPtr else h.videoPtr) + |fs[k].content|)
  {
    PayloadAround(fs, k);
  }

  lemma LineLeads(data: seq<Byte>, i: nat, h: Header, fs: seq<Frame>, k: nat, p: Plan, rest: seq<Byte>)
    returns (j: nat, h': Header)
    requires k < |fs| && k < p.total && LinesRead(h, p, fs, k) && PointersFit(fs, p) && FrameOk(fs[k])
    requires At(data, i, PrintLine(fs[k]) + rest) && i < p.meta
    ensures LinesRead(h', p, fs, k + 1) && i < j && j + |rest| == i + |PrintLine(fs[k]) + rest| && At(data, j, rest)
    ensures ParseHeader(data, i, h) == ParseHeader(data, j, h')
  {
    AtSplit(data, i, PrintLine(fs[k]), rest);
    LineKeeps(h, p, fs, k);
    ReadsLine(data, i, h, fs[k]);
    return i + |PrintLine(fs[k])|, AddFrame(h, fs[k]);
  }

  // The lines lead the parser to `end`, while the table has room for them.
  lemma {:induction false} ReadsLines(data: seq<Byte>, i: nat, h: Header, fs: seq<Frame>, k: nat, p: Plan, end: nat,
                                      out: HeaderOutcome)
    returns (h': Header)
    requires LinesRead(h, p, fs, k) && FramesOk(fs) && |fs| <= p.total && PointersFit(fs, p)
    requires At(data, i, PrintLines(fs[k..])) && i + |PrintLines(fs[k..])| == end <= p.meta
    requires out == ParseHeader(data, i, h)
    ensures LinesRead(h', p, fs, |fs|) && out == ParseHeader(data, end, h')
    decreases |fs| - k
  {
    if k == |fs| {
      return h;
    }
    assert fs[k..][0] == fs[k] && fs[k..][1..] == fs[k + 1..];
    LineSome(fs[k]);
    var j, next := LineLeads(data, i, h, fs, k, p, PrintLines(fs[k + 1..]));
    h' := ReadsLines(data, j, next, fs, k + 1, p, end, out);
  }

  lemma LineSome(f: Frame)
    ensures |PrintLine(f)| > 0
  {
  }

  lemma {:induction false} LinesSplit(a: seq<Frame>, b: seq<Frame>)
    ensures PrintLines(a + b) == PrintLines(a) + PrintLines(b)
  {
    if a == [] {
      assert a + b == b;
    } else {
      assert (a + b)[1..] == a[1..] + b;
      LinesSplit(a[1..], b);
    }
  }

  // ---------- what a container with any announcements parses to ----------

  // The header announces the plan's numbers, right or wrong, but for the size of the metadata, which is right.
  predicate Announced(items: seq<Item>, fs: seq<Frame>, p: Plan, body: seq<Byte>) {
    && HeaderOk(items, p, {}) && FramesOk(fs) && PointersFit(fs, p)
    && p.meta == |Metadata(items, fs)| && p.size == p.meta + |body| <= INT_MAX && p.meta + p.videoSize <= INT_MAX
  }

  // All frames lie in the buffer.
  predicate Inside(fs: seq<Frame>, p: Plan) {
    forall k :: 0 <= k < |fs| ==> StartAt(fs, k, p.meta, p.meta + p.videoSize) + |fs[k].content| <= p.size
  }

  // What the frames from `k` on get, cut out of the buffer by prefix sums.
  function Cut(data: seq<Byte>, fs: seq<Frame>, p: Plan, k: nat): seq<Delivery>
    requires Inside(fs, p) && |data| == p.size
    decreases |fs| - k
  {
    if k >= |fs| then []
    else
      var start := StartAt(fs, k, p.meta, p.meta + p.videoSize);
      [Delivery(if fs[k].isAudio then p.audioPid else p.videoPid, data[start..start + |fs[k].content|],
                Fold(0, fs[k].ptsDigits))] + Cut(data, fs, p, k + 1)
  }

  // The metadata read until `fs` is used up, with anything behind it.
  lemma ReadsMetadata(data: seq<Byte>, items: seq<Item>, fs: seq<Frame>, p: Plan, end: nat, out: HeaderOutcome)
    returns (h: Header)
    requires HeaderOk(items, p, {}) && FramesOk(fs) && PointersFit(fs, p) && |fs| <= p.total
    requires |data| == p.size && p.meta + p.videoSize <= INT_MAX && p.meta <= p.size
    requires At(data, 0, PrintHeader(items) + PrintLines(fs)) && end == |PrintHeader(items) + PrintLines(fs)| <= p.meta
    requires out == ParseHeader(data, 0, Initial(|data|))
    ensures LinesRead(h, p, fs, |fs|) && out == ParseHeader(data, end, h)
  {
    AtSplit(data, 0, PrintHeader(items), PrintLines(fs));
    var start := ReadsHeader(data, 0, Initial(|data|), items, p, {}, |PrintHeader(items)|, out);
    assert fs[..0] == [] && fs[0..] == fs;
    h := ReadsLines(data, |PrintHeader(items)|, start, fs, 0, p, end, out);
  }

  // A line that finds the frame table full leaves the table.
  lemma {:induction false} FullTable(data: seq<Byte>, i: nat, h: Header, f: Frame)
    requires FrameOk(f) && At(data, i, PrintLine(f)) && h.count >= |h.es| && i < h.meta
    ensures ParseHeader(data, i, h) == Broken
  {
    LineNumbers(data, i, f);
  }

  lemma {:induction false} LineTooMany(data: seq<Byte>, items: seq<Item>, few: seq<Frame>, f: Frame, tail: seq<Byte>,
                                       p: Plan)
    requires HeaderOk(items, p, {}) && FramesOk(few) && FrameOk(f) && PointersFit(few, p) && |few| == p.total
    requires |data| == p.size && p.meta + p.videoSize <= INT_MAX && p.meta <= p.size
    requires data == (PrintHeader(items) + PrintLines(few)) + (PrintLine(f) + tail)
    requires |PrintHeader(items) + PrintLines(few)| < p.meta
    ensures ParseEs(data) == Undefined
  {
    var head := PrintHeader(items) + PrintLines(few);
    assert At(data, 0, head + (PrintLine(f) + tail));
    AtSplit(data, 0, head, PrintLine(f) + tail);
    AtSplit(data, |head|, PrintLine(f), tail);
    var h := ReadsMetadata(data, items, few, p, |head|, ParseHeader(data, 0, Initial(|data|)));
    FullTable(data, |head|, h, f);
  }

  lemma {:induction false} MetadataAround(items: seq<Item>, fs: seq<Frame>, k: nat)
    requires k < |fs|
    ensures Metadata(items, fs) ==
            (PrintHeader(items) + PrintLines(fs[..k])) + (PrintLine(fs[k]) + PrintLines(fs[k + 1..]))
  {
    assert fs == fs[..k] + fs[k..] && fs[k..][0] == fs[k] && fs[k..][1..] == fs[k + 1..];
    LinesSplit(fs[..k], fs[k..]);
    Regroup(PrintHeader(items), PrintLines(fs[..k]), PrintLines(fs[k..]));
  }

  lemma TooManyLines(data: seq<Byte>, items: seq<Item>, fs: seq<Frame>, p: Plan, body: seq<Byte>)
    requires Announced(items, fs, p, body) && p.total < |fs| && data == Metadata(items, fs) + body
    ensures ParseEs(data) == Undefined
  {
    var few, f, rest := fs[..p.total], fs[p.total], PrintLines(fs[p.total + 1..]);
    assert fs == few + fs[p.total..];
    PayloadSplits(few, fs[p.total..], true);
    PayloadSplits(few, fs[p.total..], false);
    MetadataAround(items, fs, p.total);
    LineSome(f);
    var head := PrintHeader(items) + PrintLines(few);
    Regroup(head, PrintLine(f) + rest, body);
    Regroup(PrintLine(f), rest, body);
    LineTooMany(data, items, few, f, rest + body, p);
  }

  lemma {:induction false} CutsFrames(data: seq<Byte>, fs: seq<Frame>, h: Header, p: Plan, k: nat)
    requires FramesOk(fs) && k <= |fs| == p.total && LinesRead(h, p, fs, |fs|) && |data| == p.size
    ensures Inside(fs, p) ==> DeliverFrom(data, h, k) == Some(Cut(data, fs, p, k))
    ensures DeliverFrom(data, h, k).Some? ==>
              forall j :: k <= j < |fs| ==> StartAt(fs, j, p.meta, p.meta + p.videoSize) + |fs[j].content| <= p.size
    decreases |fs| - k
  {
    if k == |fs| {
    } else {
      CutsFrames(data, fs, h, p, k + 1);
      FoldGrows(0, fs[k].ptsDigits);
      assert h.es[k] == Entry(fs, k, p);
    }
  }

  // For every header that can be read and every list of frame lines behind it, what the parser answers: the
  // announced count and sizes decide whether the container is rejected, and the prefix sums what is delivered.
  lemma {:induction false} AnnouncedExactly(items: seq<Item>, fs: seq<Frame>, p: Plan, body: seq<Byte>)
    requires Announced(items, fs, p, body)
    ensures var data := Metadata(items, fs) + body;
            ParseEs(data) ==
              if p.total < |fs| then Undefined
              else if p.total > |fs| then Rejected
              else if p.meta + p.audioSize + p.videoSize > INT_MAX then Undefined
              else if p.videoSize + p.audioSize != |body| then Rejected
              else if Inside(fs, p) then Delivered(Cut(data, fs, p, 0))
              else Undefined
  {
    var data := Metadata(items, fs) + body;
    if p.total < |fs| {
      TooManyLines(data, items, fs, p, body);
    } else {
      assert At(data, 0, PrintHeader(items) + PrintLines(fs));
      var h := ReadsMetadata(data, items, fs, p, p.meta, ParseHeader(data, 0, Initial(|data|)));
      if p.total == |fs| {
        CutsFrames(data, fs, h, p, 0);
      }
    }
  }

  // A frame line whose second byte is not a comma: the container is rejected, whatever comes behind.
  lemma {:induction false} GarbledLineRejected(items: seq<Item>, fs: seq<Frame>, p: Plan, isAudio: bool,
                                               second: Byte, rest: seq<Byte>)
    requires HeaderOk(items, p, {}) && FramesOk(fs) && PointersFit(fs, p) && |fs| <= p.total && second != COMMA
    requires p.meta + p.videoSize <= INT_MAX && |PrintHeader(items) + PrintLines(fs)| < p.meta <= p.size
    requires p.size == |PrintHeader(items) + PrintLines(fs)| + 2 + |rest|
    ensures var line := [if isAudio then LETTER_A else LETTER_V, second];
            ParseEs((PrintHeader(items) + PrintLines(fs)) + (line + rest)) == Rejected
  {
    var head, line := PrintHeader(items) + PrintLines(fs), [if isAudio then LETTER_A else LETTER_V, second];
    var data := head + (line + rest);
    assert At(data, 0, head) && data[|head|] == line[0] && data[|head| + 1] == line[1];
    var h := ReadsMetadata(data, items, fs, p, |head|, ParseHeader(data, 0, Initial(|data|)));
    assert HeaderStep(data, |head|, h) == Reject;
  }

  // The header's numbers do not depend on the size of the buffer.
  lemma {:induction false} HeaderAnySize(items: seq<Item>, p: Plan, n: nat, seen: set<Kind>)
    requires HeaderOk(items, p, seen)
    ensures HeaderOk(items, p.(size := n), seen)
    decreases |items|
  {
    if items == [] {
    } else {
      HeaderAnySize(items[1..], p, n, seen + KindOf(items[0]));
    }
  }

  // So a well-announced container with anything behind it, as when two are queued, is rejected.
  lemma TrailingBytesRejected(items: seq<Item>, fs: seq<Frame>, videoPid: nat, audioPid: nat, extra: seq<Byte>)
    requires ContainerOk(items, fs, videoPid, audioPid) && extra != []
    requires |Print(items, fs) + extra| <= INT_MAX
    ensures ParseEs(Print(items, fs) + extra) == Rejected
  {
    var body := (Payload(fs, false) + Payload(fs, true)) + extra;
    var p := PlanOf(items, fs, videoPid, audioPid);
    HeaderAnySize(items, p, |Print(items, fs) + extra|, {});
    assert Print(items, fs) + extra == Metadata(items, fs) + body;
    AnnouncedExactly(items, fs, p.(size := |Print(items, fs) + extra|), body);
  }

  // And so is a printed container whose header announces other sizes than those of its payload.
  lemma {:induction false} WrongSizesRejected(items: seq<Item>, fs: seq<Frame>, p: Plan)
    requires Announced(items, fs, p, Payload(fs, false) + Payload(fs, true)) && p.total == |fs|
    requires p.meta + p.audioSize + p.videoSize <= INT_MAX
    requires p.videoSize + p.audioSize != |Payload(fs, false)| + |Payload(fs, true)|
    ensures ParseEs(Print(items, fs)) == Rejected
  {
    AnnouncedExactly(items, fs, p, Payload(fs, false) + Payload(fs, true));
  }

  // ---------- the theorem ----------

  function Expected(fs: seq<Frame>, videoPid: nat, audioPid: nat): seq<Delivery> {
    if fs == [] then []
    else
      [Delivery(if fs[0].isAudio then audioPid else videoPid, fs[0].content, Fold(0, fs[0].ptsDigits))] +
      Expected(fs[1..], videoPid, audioPid)
  }

  // A frame's content within the bytes of its kind that stand at `base`.
  lemma {:induction false} ContentAt(data: seq<Byte>, base: nat, fs: seq<Frame>, k: nat)
    requires k < |fs| && At(data, base, Payload(fs, fs[k].isAudio))
    ensures At(data, base + |Payload(fs[..k], fs[k].isAudio)|, fs[k].content)
  {
    var kind := fs[k].isAudio;
    PayloadAround(fs, k);
    AtSplit(data, base, Payload(fs[..k], kind), fs[k].content + Payload(fs[k + 1..], kind));
    AtSplit(data, base + |Payload(fs[..k], kind)|, fs[k].content, Payload(fs[k + 1..], kind));
  }

  lemma {:induction false} PayloadsAt(items: seq<Item>, fs: seq<Frame>, audio: bool)
    ensures var m := |Metadata(items, fs)|;
            At(Print(items, fs), if audio then m + |Payload(fs, false)| else m, Payload(fs, audio))
  {
  }

  lemma AtSlice(data: seq<Byte>, i: nat, s: seq<Byte>)
    requires At(data, i, s)
    ensures data[i..i + |s|] == s
  {
  }

  lemma {:induction false} SliceAt(data: seq<Byte>, meta: nat, base: nat, fs: seq<Frame>, k: nat)
    requires k < |fs| && base == if fs[k].isAudio then meta + |Payload(fs, false)| else meta
    requires At(data, base, Payload(fs, fs[k].isAudio))
    ensures var start := Start(fs, k, meta);
            At(data, start, fs[k].content) && data[start..start + |fs[k].content|] == fs[k].content
  {
    ContentAt(data, base, fs, k);
    AtSlice(data, Start(fs, k, meta), fs[k].content);
  }

  // The slice that frame `k`'s table entry names is its content.
  lemma SliceIsContent(items: seq<Item>, fs: seq<Frame>, k: nat)
    requires k < |fs|
    ensures var start := Start(fs, k, |Metadata(items, fs)|);
            At(Print(items, fs), start, fs[k].content) &&
            Print(items, fs)[start..start + |fs[k].content|] == fs[k].content
  {
    var data, meta := Print(items, fs), |Metadata(items, fs)|;
    PayloadsAt(items, fs, fs[k].isAudio);
    SliceAt(data, meta, if fs[k].isAudio then meta + |Payload(fs, false)| else meta, fs, k);
  }

  lemma {:induction false} CutIsExpected(items: seq<Item>, fs: seq<Frame>, p: Plan, k: nat)
    requires p == PlanOf(items, fs, p.videoPid, p.audioPid) && k <= |fs| && Inside(fs, p)
    ensures Cut(Print(items, fs), fs, p, k) == Expected(fs[k..], p.videoPid, p.audioPid)
    decreases |fs| - k
  {
    if k == |fs| {
    } else {
      CutIsExpected(items, fs, p, k + 1);
      SliceIsContent(items, fs, k);
      assert fs[k..][0] == fs[k] && fs[k..][1..] == fs[k + 1..];
    }
  }

  // Printing a container and parsing it gives back exactly its frames, in order.
  lemma {:induction false} RoundTrip(items: seq<Item>, fs: seq<Frame>, videoPid: nat, audioPid: nat)
    requires ContainerOk(items, fs, videoPid, audioPid)
    ensures ParseEs(Print(items, fs)) == Delivered(Expected(fs, videoPid, audioPid))
  {
    var p := PlanOf(items, fs, videoPid, audioPid);
    forall k | 0 <= k < |fs| ensures Start(fs, k, p.meta) + |fs[k].content| <= p.size {
      SliceIsContent(items, fs, k);
    }
    AnnouncedExactly(items, fs, p, Payload(fs, false) + Payload(fs, true));
    CutIsExpected(items, fs, p, 0);
    assert fs[0..] == fs;
  }

  // No frame of `j`'s kind stands strictly between `j` and `k`.
  predicate NoneBetween(fs: seq<Frame>, j: nat, k: nat)
    requires j < |fs| && k < |fs|
  {
    forall x :: j < x < k ==> fs[x].isAudio != fs[j].isAudio
  }

  function End(fs: seq<Frame>, k: nat, meta: nat): nat
    requires k < |fs|
  {
    Start(fs, k, meta) + |fs[k].content|
  }

  lemma SameKindOrder(fs: seq<Frame>, j: nat, k: nat, meta: nat)
    requires j < k < |fs| && fs[j].isAudio == fs[k].isAudio
    ensures End(fs, j, meta) <= Start(fs, k, meta)
    ensures NoneBetween(fs, j, k) ==> End(fs, j, meta) == Start(fs, k, meta)
  {
    var kind := fs[j].isAudio;
    PayloadAround(fs, j);
    assert fs[..k] == fs[..j + 1] + fs[j + 1..k];
    PayloadSplits(fs[..j + 1], fs[j + 1..k], kind);
    if NoneBetween(fs, j, k) {
      PayloadOfOthers(fs[j + 1..k], kind);
    }
  }

  lemma VideoBeforeAudio(fs: seq<Frame>, v: nat, a: nat, meta: nat)
    requires v < |fs| && a < |fs| && !fs[v].isAudio && fs[a].isAudio
    ensures End(fs, v, meta) <= Start(fs, a, meta)
  {
    PayloadAround(fs, v);
  }

  // The slices lie in the payload and do not overlap, and consecutive frames of a kind abut.
  lemma SlicesTile(items: seq<Item>, fs: seq<Frame>, j: nat, k: nat)
    requires j < |fs| && k < |fs| && j != k
    ensures var meta := |Metadata(items, fs)|;
            && meta <= Start(fs, j, meta) <= End(fs, j, meta) <= |Print(items, fs)|
            && (End(fs, j, meta) <= Start(fs, k, meta) || End(fs, k, meta) <= Start(fs, j, meta))
            && (j < k && fs[j].isAudio == fs[k].isAudio && NoneBetween(fs, j, k) ==>
                  End(fs, j, meta) == Start(fs, k, meta))
  {
    var meta := |Metadata(items, fs)|;
    SliceIsContent(items, fs, j);
    if fs[j].isAudio == fs[k].isAudio {
      SameKindOrder(fs, if j < k then j else k, if j < k then k else j, meta);
    } else {
      VideoBeforeAudio(fs, if fs[j].isAudio then k else j, if fs[j].isAudio then j else k, meta);
    }
  }

  lemma {:induction false} PayloadOfOthers(fs: seq<Frame>, audio: bool)
    requires forall x :: 0 <= x < |fs| ==> fs[x].isAudio != audio
    ensures Payload(fs, audio) == []
  {
    if fs == [] {
    } else {
      PayloadOfOthers(fs[1..], audio);
    }
  }

  lemma {:induction false} FindSlice(fs: seq<Frame>, audio: bool, x: nat) returns (k: nat)
    requires x < |Payload(fs, audio)|
    ensures k < |fs| && fs[k].isAudio == audio
    ensures |Payload(fs[..k], audio)| <= x < |Payload(fs[..k], audio)| + |fs[k].content|
  {
    var mine := if fs[0].isAudio == audio then |fs[0].content| else 0;
    if x < mine {
      return 0;
    }
    var j := FindSlice(fs[1..], audio, x - mine);
    assert fs[..j + 1][1..] == fs[1..][..j];
    return j + 1;
  }

  // Every byte after the metadata belongs to some frame's slice.
  lemma SlicesCover(items: seq<Item>, fs: seq<Frame>, x: nat)
    requires |Metadata(items, fs)| <= x < |Print(items, fs)|
    ensures exists k: nat :: k < |fs| &&
              Start(fs, k, |Metadata(items, fs)|) <= x < Start(fs, k, |Metadata(items, fs)|) + |fs[k].content|
  {
    var meta, video := |Metadata(items, fs)|, |Payload(fs, false)|;
    if x < meta + video {
      var k := FindSlice(fs, false, x - meta);
      assert Start(fs, k, meta) <= x < Start(fs, k, meta) + |fs[k].content|;
    } else {
      var k := FindSlice(fs, true, x - meta - video);
      assert Start(fs, k, meta) <= x < Start(fs, k, meta) + |fs[k].content|;
    }
  }

  // ---------- every list of frames has a container ----------

  function Digits(n: nat, width: nat): seq<Byte> {
    if width == 0 then [] else Digits(n / 10, width - 1) + [48 + n % 10]
  }

  lemma {:induction false} FoldAppend(v: int, ds: seq<Byte>, d: Byte)
    ensures Fold(v, ds + [d]) == Fold(v, ds) * 10 + d - 48
    decreases |ds|
  {
    if ds == [] {
      assert ds + [d] == [d];
    } else {
      assert (ds + [d])[1..] == ds[1..] + [d];
      FoldAppend(v * 10 + ds[0] - 48, ds[1..], d);
    }
  }

  function Pow10(width: nat): nat {
    if width == 0 then 1 else 10 * Pow10(width - 1)
  }

  lemma {:induction false} DigitsFold(n: nat, width: nat)
    requires n < Pow10(width)
    ensures AllDigits(Digits(n, width)) && |Digits(n, width)| == width && Fold(0, Digits(n, width)) == n
  {
    if width == 0 {
    } else {
      DigitsFold(n / 10, width - 1);
      FoldAppend(0, Digits(n / 10, width - 1), 48 + n % 10);
    }
  }

  // A frame to be sent, and the container that `Encode` builds with ten-digit numbers.
  datatype Sample = Sample(isAudio: bool, content: seq<Byte>, pts: nat)

  function ToFrames(ss: seq<Sample>): seq<Frame> {
    if ss == [] then []
    else [Frame(ss[0].isAudio, ss[0].content, Digits(|ss[0].content|, 10), Digits(ss[0].pts, 10))] + ToFrames(ss[1..])
  }

  function HeaderFor(fs: seq<Frame>, videoPid: nat, audioPid: nat): seq<Item> {
    [Meta(Digits(80 + 34 * |fs|, 10), COMMA)] + ([Total(Digits(|fs|, 10), COMMA)] +
    ([VideoSize(Digits(|Payload(fs, false)|, 10), COMMA)] + ([AudioSize(Digits(|Payload(fs, true)|, 10), COMMA)] +
    ([VideoPid(Digits(videoPid, 10), COMMA)] + ([AudioPid(Digits(audioPid, 10), NEWLINE)] + [])))))
  }

  function Encode(ss: seq<Sample>, videoPid: nat, audioPid: nat): seq<Byte> {
    Print(HeaderFor(ToFrames(ss), videoPid, audioPid), ToFrames(ss))
  }

  lemma {:induction false} ToFramesOk(ss: seq<Sample>, k: nat)
    requires forall s | s in ss :: |s.content| <= INT_MAX && s.pts <= INT_MAX
    ensures |ToFrames(ss)| == |ss| && FramesOk(ToFrames(ss)) && |PrintLines(ToFrames(ss))| == 34 * |ss|
    ensures k < |ss| ==>
      var f := ToFrames(ss)[k];
      f.isAudio == ss[k].isAudio && f.content == ss[k].content && Fold(0, f.ptsDigits) == ss[k].pts
  {
    if ss == [] {
    } else {
      assert Pow10(10) == 10_000_000_000 by { assert Pow10(5) == 100_000; }
      DigitsFold(|ss[0].content|, 10);
      DigitsFold(ss[0].pts, 10);
      ToFramesOk(ss[1..], if k == 0 then 0 else k - 1);
    }
  }

  function SampleDeliveries(ss: seq<Sample>, videoPid: nat, audioPid: nat): seq<Delivery> {
    seq(|ss|, k requires 0 <= k < |ss| =>
      Delivery(if ss[k].isAudio then audioPid else videoPid, ss[k].content, ss[k].pts))
  }

  lemma {:induction false} ExpectedAt(fs: seq<Frame>, videoPid: nat, audioPid: nat, k: nat)
    ensures |Expected(fs, videoPid, audioPid)| == |fs|
    ensures k < |fs| ==>
      (Expected(fs, videoPid, audioPid)[k] ==
       Delivery(if fs[k].isAudio then audioPid else videoPid, fs[k].content, Fold(0, fs[k].ptsDigits)))
  {
    if fs == [] {
    } else {
      ExpectedAt(fs[1..], videoPid, audioPid, if k == 0 then 0 else k - 1);
    }
  }

  lemma {:induction false} HeaderCons(it: Item, rest: seq<Item>, p: Plan, seen: set<Kind>)
    requires KindOf(it) !! seen && ItemOk(it, p, seen) && HeaderOk(rest, p, seen + KindOf(it))
    ensures HeaderOk([it] + rest, p, seen)
  {
  }

  lemma {:induction false} PrintCons(it: Item, rest: seq<Item>)
    ensures |PrintHeader([it] + rest)| == |PrintItem(it)| + |PrintHeader(rest)|
  {
  }

  lemma {:induction false} TenDigits(n: nat)
    requires n <= INT_MAX
    ensures Announces(Digits(n, 10), COMMA, n) && Announces(Digits(n, 10), NEWLINE, n)
  {
    assert Pow10(10) == 10_000_000_000 by { assert Pow10(5) == 100_000; }
    DigitsFold(n, 10);
  }

  lemma HeaderForSize(fs: seq<Frame>, videoPid: nat, audioPid: nat)
    ensures |PrintHeader(HeaderFor(fs, videoPid, audioPid))| == 80
  {
    forall n: nat ensures |Digits(n, 10)| == 10 {
      DigitsLength(n, 10);
    }
    var items := HeaderFor(fs, videoPid, audioPid);
    PrintCons(items[5], []);
    PrintCons(items[4], [items[5]] + []);
    PrintCons(items[3], [items[4]] + ([items[5]] + []));
    PrintCons(items[2], [items[3]] + ([items[4]] + ([items[5]] + [])));
    PrintCons(items[1], [items[2]] + ([items[3]] + ([items[4]] + ([items[5]] + []))));
    PrintCons(items[0], [items[1]] + ([items[2]] + ([items[3]] + ([items[4]] + ([items[5]] + [])))));
  }

  // The ten-digit header announces what it should.
  lemma {:induction false} HeaderForOk(fs: seq<Frame>, videoPid: nat, audioPid: nat, p: Plan)
    requires p == Plan(p.size, 80 + 34 * |fs|, |fs|, |Payload(fs, false)|, |Payload(fs, true)|, videoPid, audioPid)
    requires videoPid <= INT_MAX && audioPid <= INT_MAX && p.meta + p.videoSize + p.audioSize <= INT_MAX
    ensures HeaderOk(HeaderFor(fs, videoPid, audioPid), p, {})
  {
    TenDigits(p.meta);
    TenDigits(p.total);
    TenDigits(p.videoSize);
    TenDigits(p.audioSize);
    TenDigits(p.videoPid);
    TenDigits(p.audioPid);
    var k2, k3, k4, k5 := {KMeta, KTotal}, {KMeta, KTotal, KVideoSize},
      {KMeta, KTotal, KVideoSize, KAudioSize}, {KMeta, KTotal, KVideoSize, KAudioSize, KVideoPid};
    assert {} + {KMeta} == {KMeta} && {KMeta} + {KTotal} == k2 && k2 + {KVideoSize} == k3;
    assert k3 + {KAudioSize} == k4 && k4 + {KVideoPid} == k5 && k5 + {KAudioPid} == ALL_KINDS;
    var i6 := [AudioPid(Digits(audioPid, 10), NEWLINE)] + [];
    HeaderCons(AudioPid(Digits(audioPid, 10), NEWLINE), [], p, k5);
    var i5 := [VideoPid(Digits(videoPid, 10), COMMA)] + i6;
    HeaderCons(VideoPid(Digits(videoPid, 10), COMMA), i6, p, k4);
    var i4 := [AudioSize(Digits(p.audioSize, 10), COMMA)] + i5;
    HeaderCons(AudioSize(Digits(p.audioSize, 10), COMMA), i5, p, k3);
    var i3 := [VideoSize(Digits(p.videoSize, 10), COMMA)] + i4;
    HeaderCons(VideoSize(Digits(p.videoSize, 10), COMMA), i4, p, k2);
    var i2 := [Total(Digits(p.total, 10), COMMA)] + i3;
    HeaderCons(Total(Digits(p.total, 10), COMMA), i3, p, {KMeta});
    HeaderCons(Meta(Digits(p.meta, 10), COMMA), i2, p, {});
  }

  lemma {:induction false} DigitsLength(n: nat, width: nat)
    ensures |Digits(n, width)| == width
  {
    if width == 0 {
    } else {
      DigitsLength(n / 10, width - 1);
    }
  }

  // For every list of audio and video frames that fits a C int, the encoded container parses back to it.
  lemma EncodeRoundTrip(ss: seq<Sample>, videoPid: nat, audioPid: nat)
    requires videoPid <= INT_MAX && audioPid <= INT_MAX && |Encode(ss, videoPid, audioPid)| <= INT_MAX
    requires forall s | s in ss :: |s.content| <= INT_MAX && s.pts <= INT_MAX
    ensures ParseEs(Encode(ss, videoPid, audioPid)) == Delivered(SampleDeliveries(ss, videoPid, audioPid))
  {
    var fs := ToFrames(ss);
    ToFramesOk(ss, 0);
    var p := PlanOf(HeaderFor(fs, videoPid, audioPid), fs, videoPid, audioPid);
    HeaderForSize(fs, videoPid, audioPid);
    HeaderForOk(fs, videoPid, audioPid, p.(meta := 80 + 34 * |fs|));
    RoundTrip(HeaderFor(fs, videoPid, audioPid), fs, videoPid, audioPid);
    var got, want := Expected(fs, videoPid, audioPid), SampleDeliveries(ss, videoPid, audioPid);
    ExpectedAt(fs, videoPid, audioPid, 0);
    forall k | 0 <= k < |ss| ensures got[k] == want[k] {
      ToFramesOk(ss, k);
      ExpectedAt(fs, videoPid, audioPid, k);
    }
    assert got == want;
  }

  // And every media filter receives exactly the samples of its pid.
  lemma {:induction false} EncodeReachesFilters(ss: seq<Sample>, videoPid: nat, audioPid: nat, filters: seq<int>,
                                                f: nat)
    requires videoPid <= INT_MAX && audioPid <= INT_MAX && |Encode(ss, videoPid, audioPid)| <= INT_MAX
    requires (forall s | s in ss :: |s.content| <= INT_MAX && s.pts <= INT_MAX) && f < |filters|
    ensures var parsed := ParseEs(Encode(ss, videoPid, audioPid));
            && parsed.Delivered?
            && Received(Route(filters, parsed.frames, false), f) ==
               OfPid(SampleDeliveries(ss, videoPid, audioPid), filters[f])
  {
    EncodeRoundTrip(ss, videoPid, audioPid);
    RoutedExactly(filters, SampleDeliveries(ss, videoPid, audioPid), false, f);
  }
}
