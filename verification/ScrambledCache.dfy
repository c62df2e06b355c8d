/**
 Injection of transport packets from the 1.0 playback DVR into the demux device. Packets of a pid
 whose descrambler is not ready wait in a cache; the first packet of a ready descrambler flushes it.
 The theorems compare the cache with plain pass-through, pid by pid.
 */
module ScrambledCache {

  type Byte = x: int | 0 <= x < 256
  type Packet = seq<Byte>
  // What the reader hands over; the header bytes are read unconditionally.
  type Data = d: seq<Byte> | |d| >= 4 witness [0, 0, 0, 0]

  // Transport packets are 188 bytes.
  const SYNC_BYTE := 0x47
  const MAX_SCRAMBLED_CACHE_SIZE := 30 * 1024 * 1024
  // The flush gives up after this many failed writes.
  const MAX_WRITES := 102

  predicate ValidPacket(d: Packet) {
    |d| == 188 && d[0] == SYNC_BYTE
  }

  // A whole number of packets.
  predicate Whole(bytes: seq<Byte>) {
    |bytes| % 188 == 0
  }

  function PidOf(d: Packet): nat
    requires |d| >= 4
  {
    (d[1] as int) % 32 * 256 + d[2] as int
  }

  // Transport scrambling control.
  function Scrambling(d: Packet): nat
    requires |d| >= 4
  {
    (d[3] as int) / 64
  }

  // These are the masks and shifts of the code on the header's bytes.
  lemma PidIsMasks(d: Packet, b1: bv16, b2: bv16)
    requires |d| >= 4 && b1 as int == d[1] && b2 as int == d[2]
    ensures PidOf(d) == (((b1 & 0x1F) << 8) | (b2 & 0xFF)) as int < 0x2000
  {
    MasksAreSum(b1, b2);
  }

  lemma MasksAreSum(b1: bv16, b2: bv16)
    requires b1 < 0x100 && b2 < 0x100
    ensures ((b1 & 0x1F) << 8) | (b2 & 0xFF) == b1 % 32 * 256 + b2
    ensures b1 % 32 * 256 + b2 < 0x2000
  {
  }

  lemma ScramblingIsShift(d: Packet, b3: bv8)
    requires |d| >= 4 && b3 as int == d[3]
    ensures Scrambling(d) == (b3 >> 6) as int < 4
  {
    assert b3 >> 6 == b3 / 64;
  }

  // The descramblers' pid sets in id order, and the pids of the playback filters in id order.
  datatype Config = Config(descramblers: seq<set<nat>>, filters: seq<nat>)

  // One call: the data, which descramblers report ready, and how often the device refuses a write.
  datatype Input = Input(data: Data, config: Config, ready: set<nat>, failures: nat)

  // A packet that left the cache or passed it by: written to the device, or lost.
  datatype Gone = Gone(packet: Packet, written: bool)

  datatype State = State(cache: seq<Byte>, device: seq<Byte>, gone: seq<Gone>)

  const EMPTY := State([], [], [])

  function Split(bytes: seq<Byte>): seq<Packet> {
    if |bytes| < 188 then [] else [bytes[..188]] + Split(bytes[188..])
  }

  function Mark(packets: seq<Packet>, written: bool): (r: seq<Gone>)
    ensures |r| == |packets|
  {
    seq(|packets|, i requires 0 <= i < |packets| => Gone(packets[i], written))
  }

  // The first descrambler at or after `k` that has `pid`, or the number of descramblers.
  function Owner(ds: seq<set<nat>>, pid: nat, k: nat): (r: nat)
    requires k <= |ds|
    ensures k <= r <= |ds| && (r < |ds| ==> pid in ds[r])
    ensures forall j :: k <= j < r ==> pid !in ds[j]
    decreases |ds| - k
  {
    if k == |ds| || pid in ds[k] then k else Owner(ds, pid, k + 1)
  }

  predicate Owned(c: Config, pid: nat) {
    exists k :: 0 <= k < |c.descramblers| && pid in c.descramblers[k]
  }

  function Append(cache: seq<Byte>, d: Packet): seq<Byte> {
    if ValidPacket(d) then cache + d else cache
  }

  function Hold(s: State, d: Packet): State {
    var cache := Append(s.cache, d);
    if |cache| > MAX_SCRAMBLED_CACHE_SIZE then Release(s, cache, false)
    else s.(cache := cache)
  }

  function Flush(s: State, d: Packet, failures: nat): State {
    var cache := Append(s.cache, d);
    Release(s, cache, failures < MAX_WRITES)
  }

  function Pass(s: State, d: Packet): State {
    if ValidPacket(d) then s.(device := s.device + d, gone := s.gone + [Gone(d, true)]) else s
  }

  function Step(s: State, x: Input): State {
    var pid, ds := PidOf(x.data), x.config.descramblers;
    if Scrambling(x.data) != 0 && ds == [] then s
    else
      var k := Owner(ds, pid, 0);
      if k < |ds| && k !in x.ready then Hold(s, x.data)
      else if pid !in x.config.filters then s
      else if k < |ds| && s.cache != [] then Flush(s, x.data, x.failures)
      else Pass(s, x.data)
  }

  class Demux {
    var cache: seq<Byte>
    var device: seq<Byte>
    var descramblers: seq<set<nat>>
    var filters: seq<nat>
    ghost var gone: seq<Gone>

    ghost function Snapshot(): State
      reads this
    {
      State(cache, device, gone)
    }

    constructor ()
      ensures Snapshot() == EMPTY && descramblers == [] && filters == []
    {
      cache, device, descramblers, filters := [], [], [], [];
      gone := [];
    }

    // `AM_DMX_WriteTs`: the device refuses `refusals` more times before it takes the bytes.
    method WriteTs(bytes: seq<Byte>, refusals: nat) returns (ok: bool)
      modifies this`device
      ensures ok == (refusals == 0)
      ensures device == if ok then old(device) + bytes else old(device)
    {
      ok := refusals == 0;
      if ok {
        device := device + bytes;
      }
    }

    method StartBroadcastTsFilter(data: Data, ready: set<nat>, failures: nat)
      modifies this`cache, this`device, this`gone
      ensures Snapshot() == Step(old(Snapshot()), Input(data, Config(descramblers, filters), ready, failures))
    {
      var pid, scb := PidOf(data), Scrambling(data);
      if scb != 0 && |descramblers| == 0 {
        return;
      }
      var isDscReady := false;
      var k := 0;
      while k < |descramblers|
        invariant k <= |descramblers| && !isDscReady && Snapshot() == old(Snapshot())
        invariant Owner(descramblers, pid, 0) == Owner(descramblers, pid, k)
      {
        if pid in descramblers[k] {
          isDscReady := k in ready;
          if !isDscReady {
            if ValidPacket(data) {
              cache := cache + data;
            }
            if |cache| > MAX_SCRAMBLED_CACHE_SIZE {
              gone := gone + Mark(Split(cache), false);
              cache := [];
            }
            return;
          }
          break;
        }
        k := k + 1;
      }
      assert k == Owner(descramblers, pid, 0) && isDscReady == (k < |descramblers|);
      var needWriteData := false;
      var f := 0;
      while f < |filters|
        invariant f <= |filters| && !needWriteData && pid !in filters[..f] && Snapshot() == old(Snapshot())
      {
        if filters[f] == pid {
          needWriteData := true;
          break;
        }
        f := f + 1;
      }
      assert needWriteData == (pid in filters);
      if !needWriteData {
        return;
      }
      var refusals := failures;
      if isDscReady && |cache| != 0 {
        if ValidPacket(data) {
          cache := cache + data;
        }
        var writeRetry := 0;
        var written := WriteTs(cache, refusals);
        while !written && writeRetry <= 100
          invariant cache == Append(old(cache), data) && gone == old(gone)
          invariant 0 <= writeRetry <= 101 && writeRetry <= failures
          invariant written == (failures == writeRetry) && refusals == failures - writeRetry
          invariant device == if written then old(device) + cache else old(device)
          decreases 101 - writeRetry
        {
          writeRetry, refusals := writeRetry + 1, refusals - 1;
          written := WriteTs(cache, refusals);
        }
        assert written == (failures < MAX_WRITES);
        gone := gone + Mark(Split(cache), written);
        cache := [];
        assert Snapshot() == Flush(old(Snapshot()), data, failures);
        return;
      }
      if ValidPacket(data) {
        var written := WriteTs(data, refusals);
        while !written
          invariant written == (refusals == 0) && cache == old(cache) && gone == old(gone)
          invariant device == if written then old(device) + data else old(device)
          decreases refusals
        {
          refusals := refusals - 1;
          written := WriteTs(data, refusals);
        }
        gone := gone + [Gone(data, true)];
      }
    }
  }

  // ---------- runs ----------

  function Run(s: State, xs: seq<Input>): State
    decreases |xs|
  {
    if xs == [] then s else Run(Step(s, xs[0]), xs[1..])
  }

  // The packets of one pid, in order.
  function OfPid(packets: seq<Packet>, pid: nat): seq<Packet> {
    if packets == [] then []
    else (if ValidPacket(packets[0]) && PidOf(packets[0]) == pid then [packets[0]] else []) + OfPid(packets[1..], pid)
  }

  function Datas(xs: seq<Input>): (r: seq<Packet>)
    ensures |r| == |xs|
  {
    seq(|xs|, i requires 0 <= i < |xs| => xs[i].data)
  }

  function Packets(gone: seq<Gone>): (r: seq<Packet>)
    ensures |r| == |gone|
  {
    seq(|gone|, i requires 0 <= i < |gone| => gone[i].packet)
  }

  function Written(gone: seq<Gone>): seq<Packet> {
    if gone == [] then [] else (if gone[0].written then [gone[0].packet] else []) + Written(gone[1..])
  }

  // Everything accepted so far: what left, then what waits.
  function History(s: State): seq<Packet> {
    Packets(s.gone) + Split(s.cache)
  }

  predicate AllValid(packets: seq<Packet>) {
    forall i :: 0 <= i < |packets| ==> ValidPacket(packets[i])
  }

  // The cache is a whole number of sync-aligned packets within its bound, and the device holds
  // exactly the packets marked as written.
  predicate Inv(s: State) {
    && Whole(s.cache) && |s.cache| <= MAX_SCRAMBLED_CACHE_SIZE
    && AllValid(Split(s.cache)) && AllValid(Packets(s.gone))
    && Whole(s.device) && Split(s.device) == Written(s.gone)
  }

  lemma {:induction false} SplitConcat(a: seq<Byte>, b: seq<Byte>)
    requires Whole(a)
    ensures Split(a + b) == Split(a) + Split(b)
    decreases |a|
  {
    if a == [] {
      assert a + b == b;
    } else {
      var rest := a[188..];
      assert (a + b)[..188] == a[..188] && (a + b)[188..] == rest + b;
      SplitConcat(rest, b);
    }
  }

  lemma {:induction false} SplitOne(d: Packet)
    requires ValidPacket(d)
    ensures Split(d) == [d]
  {
    assert d[..188] == d && d[188..] == [];
  }

  lemma {:induction false} OfPidConcat(a: seq<Packet>, b: seq<Packet>, pid: nat)
    ensures OfPid(a + b, pid) == OfPid(a, pid) + OfPid(b, pid)
  {
    if a == [] {
      assert a + b == b;
    } else {
      assert (a + b)[1..] == a[1..] + b;
      OfPidConcat(a[1..], b, pid);
    }
  }

  lemma {:induction false} WrittenConcat(a: seq<Gone>, b: seq<Gone>)
    ensures Written(a + b) == Written(a) + Written(b)
  {
    if a == [] {
      assert a + b == b;
    } else {
      assert (a + b)[1..] == a[1..] + b;
      WrittenConcat(a[1..], b);
    }
  }

  lemma {:induction false} WrittenMark(packets: seq<Packet>, written: bool)
    ensures Written(Mark(packets, written)) == if written then packets else []
    ensures Packets(Mark(packets, written)) == packets
  {
    if packets == [] {
    } else {
      assert Mark(packets, written)[1..] == Mark(packets[1..], written);
      WrittenMark(packets[1..], written);
    }
  }

  lemma PacketsConcat(a: seq<Gone>, b: seq<Gone>)
    ensures Packets(a + b) == Packets(a) + Packets(b)
  {
  }

  lemma {:induction false} AppendKeeps(cache: seq<Byte>, d: Packet)
    requires Whole(cache) && AllValid(Split(cache))
    ensures Whole(Append(cache, d)) && AllValid(Split(Append(cache, d)))
    ensures Split(Append(cache, d)) == Split(cache) + if ValidPacket(d) then [d] else []
  {
    if ValidPacket(d) {
      SplitConcat(cache, d);
      SplitOne(d);
    }
  }

  function Release(s: State, cache: seq<Byte>, written: bool): State {
    State([], if written then s.device + cache else s.device, s.gone + Mark(Split(cache), written))
  }

  // Moving packets out of the cache, written or lost.
  lemma {:induction false} ReleaseKeeps(s: State, cache: seq<Byte>, written: bool)
    requires Inv(s) && Whole(cache) && AllValid(Split(cache))
    ensures Inv(Release(s, cache, written))
    ensures History(Release(s, cache, written)) == Packets(s.gone) + Split(cache)
  {
    ReleaseMarks(s.gone, Split(cache), written);
    ReleaseDevice(s, cache, written);
    assert Packets(Release(s, cache, written).gone) + [] == Packets(s.gone) + Split(cache);
  }

  lemma ReleaseDevice(s: State, cache: seq<Byte>, written: bool)
    requires Inv(s) && Whole(cache)
    ensures var s' := Release(s, cache, written); Whole(s'.device) && Split(s'.device) == Written(s'.gone)
  {
    ReleaseMarks(s.gone, Split(cache), written);
    SplitConcat(s.device, cache);
  }

  lemma {:induction false} ReleaseMarks(gone: seq<Gone>, packets: seq<Packet>, written: bool)
    ensures Written(gone + Mark(packets, written)) == if written then Written(gone) + packets else Written(gone)
    ensures Packets(gone + Mark(packets, written)) == Packets(gone) + packets
  {
    WrittenMark(packets, written);
    WrittenConcat(gone, Mark(packets, written));
    PacketsConcat(gone, Mark(packets, written));
  }

  lemma PassKeeps(s: State, d: Packet)
    requires Inv(s)
    ensures Inv(Pass(s, d))
    ensures Packets(Pass(s, d).gone) == Packets(s.gone) + if ValidPacket(d) then [d] else []
  {
    if ValidPacket(d) {
      PacketsConcat(s.gone, [Gone(d, true)]);
      assert Packets([Gone(d, true)]) == [d];
      assert Split(s.device + d) == Written(s.gone + [Gone(d, true)]) by {
        WrittenConcat(s.gone, [Gone(d, true)]);
        SplitConcat(s.device, d);
        SplitOne(d);
      }
    }
  }

  lemma HistoryGrows(gone: seq<Packet>, cache: seq<Packet>, more: seq<Packet>)
    ensures gone + (cache + more) == (gone + cache) + more
  {
  }

  lemma HoldKeeps(s: State, d: Packet)
    requires Inv(s)
    ensures Inv(Hold(s, d)) && Hold(s, d).device == s.device
    ensures History(Hold(s, d)) == History(s) + if ValidPacket(d) then [d] else []
  {
    AppendKeeps(s.cache, d);
    HistoryGrows(Packets(s.gone), Split(s.cache), if ValidPacket(d) then [d] else []);
    ReleaseKeeps(s, Append(s.cache, d), false);
  }

  lemma FlushKeeps(s: State, d: Packet, failures: nat)
    requires Inv(s)
    ensures Inv(Flush(s, d, failures))
    ensures History(Flush(s, d, failures)) == History(s) + if ValidPacket(d) then [d] else []
  {
    AppendKeeps(s.cache, d);
    HistoryGrows(Packets(s.gone), Split(s.cache), if ValidPacket(d) then [d] else []);
    ReleaseKeeps(s, Append(s.cache, d), failures < MAX_WRITES);
  }

  lemma StepKeepsInv(s: State, x: Input)
    requires Inv(s)
    ensures Inv(Step(s, x))
  {
    HoldKeeps(s, x.data);
    FlushKeeps(s, x.data, x.failures);
    PassKeeps(s, x.data);
  }

  // In every run, cap resets included, the cache is whole sync-aligned packets within 30 MiB.
  lemma {:induction false} CacheBounded(s: State, xs: seq<Input>)
    requires Inv(s)
    ensures Inv(Run(s, xs)) && |Run(s, xs).cache| % 188 == 0 && |Run(s, xs).cache| <= 31_457_280
    ensures AllValid(Split(Run(s, xs).cache))
    decreases |xs|
  {
    if xs == [] {
    } else {
      StepKeepsInv(s, xs[0]);
      CacheBounded(Step(s, xs[0]), xs[1..]);
    }
  }

  // ---------- agreement with pass-through, per pid ----------

  // `pid` always has a playback filter, always or never has a descrambler, and is not dropped for
  // want of any descrambler.
  predicate Steady(x: Input, pid: nat, owned: bool) {
    && pid in x.config.filters && Owned(x.config, pid) == owned
    && (PidOf(x.data) == pid && Scrambling(x.data) != 0 ==> x.config.descramblers != [])
  }

  // Between `s` and `t` exactly the packets `ds` of `pid` were accepted.
  predicate Accepts(s: State, t: State, ds: seq<Packet>, pid: nat) {
    OfPid(History(t), pid) == OfPid(History(s), pid) + OfPid(ds, pid)
  }

  lemma AcceptsChain(s: State, m: State, t: State, a: seq<Packet>, b: seq<Packet>, pid: nat)
    requires Accepts(s, m, a, pid) && Accepts(m, t, b, pid)
    ensures Accepts(s, t, a + b, pid)
  {
    OfPidConcat(a, b, pid);
  }

  lemma {:induction false} GrowsByOne(h: seq<Packet>, d: Packet, pid: nat)
    ensures OfPid(h + if ValidPacket(d) then [d] else [], pid) == OfPid(h, pid) + OfPid([d], pid)
  {
    OfPidConcat(h, if ValidPacket(d) then [d] else [], pid);
  }

  // A packet that passes the cache does not overtake one of its own pid.
  lemma {:induction false} PassKeepsPid(s: State, d: Packet, pid: nat)
    requires Inv(s) && |d| >= 4
    requires PidOf(d) == pid ==> OfPid(Split(s.cache), pid) == []
    ensures OfPid(History(Pass(s, d)), pid) == OfPid(History(s), pid) + OfPid([d], pid)
  {
    PassKeeps(s, d);
    PassOvertakesNone(Packets(s.gone), Split(s.cache), d, pid);
  }

  lemma PassOvertakesNone(gone: seq<Packet>, cache: seq<Packet>, d: Packet, pid: nat)
    requires |d| >= 4 && (PidOf(d) == pid ==> OfPid(cache, pid) == [])
    ensures OfPid((gone + if ValidPacket(d) then [d] else []) + cache, pid)
         == OfPid(gone + cache, pid) + OfPid([d], pid)
  {
    OfPidConcat(gone + (if ValidPacket(d) then [d] else []), cache, pid);
    GrowsByOne(gone, d, pid);
    OfPidConcat(gone, cache, pid);
    assert PidOf(d) != pid ==> OfPid([d], pid) == [];
  }

  lemma {:induction false} StepKeepsPid(s: State, x: Input, pid: nat, owned: bool)
    requires Inv(s) && Steady(x, pid, owned)
    requires !owned ==> OfPid(Split(s.cache), pid) == []
    ensures !owned ==> OfPid(Split(Step(s, x).cache), pid) == []
    ensures Accepts(s, Step(s, x), [x.data], pid)
  {
    var d, ds := x.data, x.config.descramblers;
    var k := Owner(ds, PidOf(d), 0);
    assert PidOf(d) != pid ==> OfPid([d], pid) == [];
    GrowsByOne(History(s), d, pid);
    if Scrambling(d) != 0 && ds == [] {
    } else if k < |ds| && k !in x.ready {
      HoldKeeps(s, d);
      AppendKeeps(s.cache, d);
      GrowsByOne(Split(s.cache), d, pid);
    } else if PidOf(d) !in x.config.filters {
    } else if k < |ds| && s.cache != [] {
      FlushKeeps(s, d, x.failures);
    } else {
      PassKeepsPid(s, d, pid);
    }
  }

  // For every run and every steady pid, what was accepted of the pid is what came in, in order.
  lemma {:induction false} RunKeepsPid(s: State, xs: seq<Input>, pid: nat, owned: bool)
    requires Inv(s) && forall i :: 0 <= i < |xs| ==> Steady(xs[i], pid, owned)
    requires !owned ==> OfPid(Split(s.cache), pid) == []
    ensures Accepts(s, Run(s, xs), Datas(xs), pid)
    decreases |xs|
  {
    if xs == [] {
    } else {
      var x, rest := xs[0], xs[1..];
      StepKeepsInv(s, x);
      StepKeepsPid(s, x, pid, owned);
      RunKeepsPid(Step(s, x), rest, pid, owned);
      AcceptsChain(s, Step(s, x), Run(Step(s, x), rest), [x.data], Datas(rest), pid);
      assert Datas(xs) == [x.data] + Datas(rest);
    }
  }

  predicate Loses(gone: seq<Gone>, pid: nat) {
    exists i :: 0 <= i < |gone| && !gone[i].written && ValidPacket(gone[i].packet) && PidOf(gone[i].packet) == pid
  }

  lemma {:induction false} LossIsExact(gone: seq<Gone>, pid: nat)
    ensures |OfPid(Written(gone), pid)| <= |OfPid(Packets(gone), pid)|
    ensures Loses(gone, pid) <==> |OfPid(Written(gone), pid)| < |OfPid(Packets(gone), pid)|
    ensures !Loses(gone, pid) ==> OfPid(Written(gone), pid) == OfPid(Packets(gone), pid)
  {
    if gone == [] {
    } else {
      var g, rest := gone[0], gone[1..];
      LossIsExact(rest, pid);
      assert Packets(gone) == [g.packet] + Packets(rest);
      OfPidConcat([g.packet], Packets(rest), pid);
      OfPidConcat(if g.written then [g.packet] else [], Written(rest), pid);
      assert Loses(gone, pid) <==> Loses([g], pid) || Loses(rest, pid) by {
        if Loses(rest, pid) {
          var i :| 0 <= i < |rest| && !rest[i].written && ValidPacket(rest[i].packet) && PidOf(rest[i].packet) == pid;
          assert gone[i + 1] == rest[i];
        }
        if Loses([g], pid) {
          assert gone[0] == [g][0];
        }
        if Loses(gone, pid) {
          var i :| 0 <= i < |gone| && !gone[i].written && ValidPacket(gone[i].packet) && PidOf(gone[i].packet) == pid;
          assert i == 0 || gone[i] == rest[i - 1];
          assert i == 0 ==> [g][0] == gone[i];
        }
      }
      assert Loses([g], pid) <==> (!g.written && OfPid([g.packet], pid) != []) by {
        if !g.written && OfPid([g.packet], pid) != [] {
          assert [g][0] == g;
        }
      }
    }
  }

  // ---------- when a packet is lost ----------

  // The pid of the packet has a descrambler, the first of which says it is not ready, or is ready.
  predicate OwnerWaits(x: Input) {
    exists k :: 0 <= k < |x.config.descramblers| && FirstWith(x.config.descramblers, PidOf(x.data), k) && k !in x.ready
  }

  predicate OwnerReady(x: Input) {
    exists k :: 0 <= k < |x.config.descramblers| && FirstWith(x.config.descramblers, PidOf(x.data), k) && k in x.ready
  }

  predicate FirstWith(ds: seq<set<nat>>, pid: nat, k: nat)
    requires k < |ds|
  {
    pid in ds[k] && forall j :: 0 <= j < k ==> pid !in ds[j]
  }

  // The bytes that the packet would add.
  function Added(d: Packet): seq<Byte> {
    if |d| == 188 && d[0] == 0x47 then d else []
  }

  // The cache would grow beyond 30 MiB with the packet.
  predicate CapReset(s: State, x: Input) {
    OwnerWaits(x) && |s.cache| + |Added(x.data)| > 31_457_280
  }

  // The packet would flush the cache.
  predicate Flushing(s: State, x: Input) {
    OwnerReady(x) && PidOf(x.data) in x.config.filters && s.cache != []
  }

  // And the device refuses the bytes 102 times.
  predicate GivesUp(s: State, x: Input) {
    Flushing(s, x) && x.failures >= 102
  }

  // What every step does with the bytes: hold, reset, flush, lose in a flush, pass, or leave out.
  lemma StepExactly(s: State, x: Input)
    ensures var t, d := Step(s, x), Added(x.data);
            if OwnerWaits(x) then
              t.device == s.device && t.cache == if CapReset(s, x) then [] else s.cache + d
            else if Flushing(s, x) then
              t.cache == [] && t.device == s.device + if GivesUp(s, x) then [] else s.cache + d
            else
              t.cache == s.cache &&
              t.device == s.device +
                if PidOf(x.data) in x.config.filters && (Scrambling(x.data) == 0 || x.config.descramblers != [])
                then d else []
  {
    var k := Owner(x.config.descramblers, PidOf(x.data), 0);
    if k < |x.config.descramblers| {
      assert FirstWith(x.config.descramblers, PidOf(x.data), k);
    }
    assert s.device + [] == s.device && s.cache + [] == s.cache;
  }

  // What a step adds to the packets that left unwritten: in a cap reset and in a flush that gives up all that
  // was in the cache and the packet, and otherwise nothing.
  lemma StepLosesExactly(s: State, x: Input, pid: nat)
    requires Inv(s)
    ensures Loses(Step(s, x).gone, pid) <==> Loses(s.gone, pid) || DropsPid(s, x, pid)
  {
    var t, cache := Step(s, x), Append(s.cache, x.data);
    var k := Owner(x.config.descramblers, PidOf(x.data), 0);
    if k < |x.config.descramblers| {
      assert FirstWith(x.config.descramblers, PidOf(x.data), k);
    }
    AppendKeeps(s.cache, x.data);
    GrowsByOne(Split(s.cache), x.data, pid);
    if CapReset(s, x) || Flushing(s, x) {
      LosesMarked(s.gone, Split(cache), Flushing(s, x) && x.failures < 102, pid);
    } else if t.gone != s.gone {
      assert t.gone == s.gone + Mark([x.data], true);
      LosesMarked(s.gone, [x.data], true, pid);
    }
  }

  // A packet of `pid` is dropped.
  predicate DropsPid(s: State, x: Input, pid: nat) {
    (CapReset(s, x) || GivesUp(s, x)) && (OfPid(Split(s.cache), pid) != [] || OfPid([x.data], pid) != [])
  }

  lemma {:induction false} LosesMarked(gone: seq<Gone>, packets: seq<Packet>, written: bool, pid: nat)
    ensures Loses(gone + Mark(packets, written), pid) <==>
            Loses(gone, pid) || (!written && OfPid(packets, pid) != [])
  {
    var all := gone + Mark(packets, written);
    OfPidSome(packets, pid);
    forall i | 0 <= i < |gone| ensures all[i] == gone[i] {
    }
    forall i | 0 <= i < |packets| ensures all[|gone| + i] == Gone(packets[i], written) {
    }
    if Loses(all, pid) {
      var i :| 0 <= i < |all| && !all[i].written && ValidPacket(all[i].packet) && PidOf(all[i].packet) == pid;
      assert i < |gone| || packets[i - |gone|] == all[i].packet;
    }
  }

  lemma {:induction false} OfPidSome(packets: seq<Packet>, pid: nat)
    ensures OfPid(packets, pid) != [] <==>
            exists i :: 0 <= i < |packets| && ValidPacket(packets[i]) && PidOf(packets[i]) == pid
  {
    if packets == [] {
    } else {
      OfPidSome(packets[1..], pid);
      if OfPid(packets[1..], pid) != [] {
        var i :| 0 <= i < |packets[1..]| && ValidPacket(packets[1..][i]) && PidOf(packets[1..][i]) == pid;
        assert packets[i + 1] == packets[1..][i];
      }
      forall i | 0 < i < |packets| ensures packets[i] == packets[1..][i - 1] {
      }
    }
  }

  predicate NeverDrops(s: State, xs: seq<Input>, pid: nat)
    decreases |xs|
  {
    xs == [] || (!DropsPid(s, xs[0], pid) && NeverDrops(Step(s, xs[0]), xs[1..], pid))
  }

  lemma {:induction false} RunLosesExactly(s: State, xs: seq<Input>, pid: nat)
    requires Inv(s)
    ensures Loses(Run(s, xs).gone, pid) <==> Loses(s.gone, pid) || !NeverDrops(s, xs, pid)
    decreases |xs|
  {
    if xs == [] {
    } else {
      StepKeepsInv(s, xs[0]);
      StepLosesExactly(s, xs[0], pid);
      RunLosesExactly(Step(s, xs[0]), xs[1..], pid);
    }
  }

  // From power-on, (bytes written ++ cache) restricted to a steady pid is the pass-through of that
  // pid exactly when no step drops a packet of the pid: no packet grows the cache beyond its cap, and no
  // flush is refused 102 times, while one of the pid is there.
  lemma {:induction false} AgreesWithPassThrough(xs: seq<Input>, pid: nat, owned: bool)
    requires forall i :: 0 <= i < |xs| ==> Steady(xs[i], pid, owned)
    ensures var s := Run(EMPTY, xs);
            OfPid(Split(s.device + s.cache), pid) == OfPid(Datas(xs), pid) <==> NeverDrops(EMPTY, xs, pid)
  {
    CacheBounded(EMPTY, xs);
    RunKeepsPid(EMPTY, xs, pid, owned);
    assert History(EMPTY) == [] && OfPid([], pid) + OfPid(Datas(xs), pid) == OfPid(Datas(xs), pid);
    DeviceAndHistory(Run(EMPTY, xs), pid);
    RunLosesExactly(EMPTY, xs, pid);
  }

  // So nothing is lost while all that comes in fits the cap and the device takes every flush in time.
  predicate Gentle(x: Input) {
    x.failures < 102
  }

  lemma {:induction false} SmallRunsNeverDrop(s: State, xs: seq<Input>, pid: nat)
    requires |s.cache| + 188 * |xs| <= 31_457_280 && forall i :: 0 <= i < |xs| ==> Gentle(xs[i])
    ensures NeverDrops(s, xs, pid)
    decreases |xs|
  {
    if xs == [] {
    } else {
      StepExactly(s, xs[0]);
      assert Gentle(xs[0]);
      SmallRunsNeverDrop(Step(s, xs[0]), xs[1..], pid);
    }
  }

  lemma {:induction false} DeviceAndHistory(s: State, pid: nat)
    requires Inv(s)
    ensures OfPid(Split(s.device + s.cache), pid) == OfPid(History(s), pid) <==> !Loses(s.gone, pid)
  {
    SplitConcat(s.device, s.cache);
    OfPidConcat(Split(s.device), Split(s.cache), pid);
    OfPidConcat(Packets(s.gone), Split(s.cache), pid);
    LossIsExact(s.gone, pid);
  }

  // The cache only ever holds pids that some descrambler had when they came in.
  lemma {:induction false} CacheOnlyOwned(s: State, xs: seq<Input>, pid: nat)
    requires Inv(s) && OfPid(Split(s.cache), pid) == []
    requires forall i :: 0 <= i < |xs| ==> !Owned(xs[i].config, pid)
    ensures OfPid(Split(Run(s, xs).cache), pid) == []
    decreases |xs|
  {
    if xs == [] {
    } else {
      StepKeepsInv(s, xs[0]);
      AppendKeeps(s.cache, xs[0].data);
      GrowsByOne(Split(s.cache), xs[0].data, pid);
      assert PidOf(xs[0].data) != pid ==> OfPid([xs[0].data], pid) == [];
      CacheOnlyOwned(Step(s, xs[0]), xs[1..], pid);
    }
  }

  // ---------- when a packet is written before its descrambler is ready ----------

  // The descrambler of `pid` is not ready.
  predicate Blocked(x: Input, pid: nat) {
    var k := Owner(x.config.descramblers, pid, 0);
    k < |x.config.descramblers| && k !in x.ready
  }

  // The input flushes the cache to the device: its own descrambler is ready, it passes a playback filter,
  // and the device takes the bytes before the writer gives up.
  predicate Flushes(s: State, x: Input) {
    var k := Owner(x.config.descramblers, PidOf(x.data), 0);
    && k < |x.config.descramblers| && k in x.ready && PidOf(x.data) in x.config.filters
    && s.cache != [] && x.failures < MAX_WRITES
  }

  // What a step writes of a pid whose descrambler is not ready: the pid's packets in the cache if the step
  // flushes, and nothing otherwise.
  lemma {:induction false} BlockedWrites(s: State, x: Input, pid: nat)
    requires Inv(s) && Blocked(x, pid)
    ensures OfPid(Split(Step(s, x).device), pid) ==
            OfPid(Split(s.device), pid) + if Flushes(s, x) then OfPid(Split(s.cache), pid) else []
  {
    var k := Owner(x.config.descramblers, PidOf(x.data), 0);
    var before := OfPid(Split(s.device), pid);
    assert before + [] == before;
    if Flushes(s, x) {
      assert PidOf(x.data) != pid;
      AppendKeeps(s.cache, x.data);
      GrowsByOne(Split(s.cache), x.data, pid);
      assert OfPid([x.data], pid) == [];
      SplitConcat(s.device, Append(s.cache, x.data));
      OfPidConcat(Split(s.device), Split(Append(s.cache, x.data)), pid);
    } else if Step(s, x) == Pass(s, x.data) && ValidPacket(x.data) {
      SplitConcat(s.device, x.data);
      SplitOne(x.data);
      OfPidConcat(Split(s.device), [x.data], pid);
    }
  }

  // A step writes a packet of a waiting pid exactly if it flushes a cache that holds one.
  predicate WritesEarly(s: State, x: Input, pid: nat) {
    Flushes(s, x) && OfPid(Split(s.cache), pid) != []
  }

  predicate NeverWritesEarly(s: State, xs: seq<Input>, pid: nat)
    decreases |xs|
  {
    xs == [] || (!WritesEarly(s, xs[0], pid) && NeverWritesEarly(Step(s, xs[0]), xs[1..], pid))
  }

  lemma {:induction false} BlockedGrows(s: State, xs: seq<Input>, pid: nat)
    requires Inv(s) && forall i :: 0 <= i < |xs| ==> Blocked(xs[i], pid)
    ensures |OfPid(Split(Run(s, xs).device), pid)| >= |OfPid(Split(s.device), pid)|
    decreases |xs|
  {
    if xs == [] {
    } else {
      StepKeepsInv(s, xs[0]);
      BlockedWrites(s, xs[0], pid);
      BlockedGrows(Step(s, xs[0]), xs[1..], pid);
    }
  }

  // Over every run in which the descrambler of `pid` is not ready, with any number of descramblers: no packet
  // of the pid is written exactly if no flush for another one finds a packet of it in the cache.
  lemma {:induction false} NothingBeforeReadyExactly(s: State, xs: seq<Input>, pid: nat)
    requires Inv(s) && forall i :: 0 <= i < |xs| ==> Blocked(xs[i], pid)
    ensures OfPid(Split(Run(s, xs).device), pid) == OfPid(Split(s.device), pid) <==> NeverWritesEarly(s, xs, pid)
    decreases |xs|
  {
    if xs == [] {
    } else {
      var t := Step(s, xs[0]);
      StepKeepsInv(s, xs[0]);
      BlockedWrites(s, xs[0], pid);
      NothingBeforeReadyExactly(t, xs[1..], pid);
      if WritesEarly(s, xs[0], pid) {
        BlockedGrows(t, xs[1..], pid);
      }
    }
  }

  // The only descrambler has `pid` and is not ready.
  predicate Waiting(x: Input, pid: nat) {
    |x.config.descramblers| == 1 && pid in x.config.descramblers[0] && 0 !in x.ready
  }

  // So with one descrambler nothing of its pids is written before it is ready.
  lemma {:induction false} NothingBeforeReady(s: State, xs: seq<Input>, pid: nat)
    requires Inv(s) && forall i :: 0 <= i < |xs| ==> Waiting(xs[i], pid)
    ensures OfPid(Split(Run(s, xs).device), pid) == OfPid(Split(s.device), pid)
  {
    OneNeverFlushes(s, xs, pid);
    NothingBeforeReadyExactly(s, xs, pid);
  }

  lemma {:induction false} OneNeverFlushes(s: State, xs: seq<Input>, pid: nat)
    requires forall i :: 0 <= i < |xs| ==> Waiting(xs[i], pid)
    ensures NeverWritesEarly(s, xs, pid) && forall i :: 0 <= i < |xs| ==> Blocked(xs[i], pid)
    decreases |xs|
  {
    if xs == [] {
    } else {
      assert Waiting(xs[0], pid);
      OneNeverFlushes(Step(s, xs[0]), xs[1..], pid);
      forall i | 0 <= i < |xs| ensures Blocked(xs[i], pid) {
        assert Waiting(xs[i], pid);
      }
    }
  }

  function Filled(pid: nat): Data
    requires pid < 256
  {
    [0x47, 0, pid, 0xC0] + seq(184, _ => 0)
  }

  const TWO: Config := Config([{1}, {2}], [1, 2])

  lemma TwoSteps()
    ensures Step(EMPTY, Input(Filled(2), TWO, {}, 0)) == State(Filled(2), [], [])
    ensures Step(State(Filled(2), [], []), Input(Filled(1), TWO, {0}, 0)).device == Filled(2) + Filled(1)
  {
    assert TWO.descramblers[0] == {1} && TWO.descramblers[1] == {2} && TWO.filters[0] == 1;
    assert Owner(TWO.descramblers, 2, 1) == 1 && Owner(TWO.descramblers, 2, 0) == 1;
    assert Owner(TWO.descramblers, 1, 0) == 0;
  }

  lemma SecondOfTwo()
    ensures OfPid(Split(Filled(2) + Filled(1)), 2) == [Filled(2)]
  {
    SplitConcat(Filled(2), Filled(1));
    SplitOne(Filled(2));
    SplitOne(Filled(1));
    OfPidConcat([Filled(2)], [Filled(1)], 2);
  }

  // A run in which that happens: a packet of the second descrambler, which never becomes ready, is written as
  // soon as a packet of the first flushes the shared cache.
  lemma FlushIgnoresOwner()
    ensures var waiting := Step(EMPTY, Input(Filled(2), TWO, {}, 0));
            OfPid(Split(Step(waiting, Input(Filled(1), TWO, {0}, 0)).device), 2) == [Filled(2)]
  {
    TwoSteps();
    SecondOfTwo();
  }

  // ---------- the reader that drives the injection ----------

  // The packets of a queue, with what the environment does at each.
  function Inputs(queue: seq<Byte>, size: nat, c: Config, ready: nat -> set<nat>, failures: nat -> nat, k: nat)
    : seq<Input>
    requires size >= 4
    decreases |queue|
  {
    if |queue| < size then []
    else [Input(queue[..size], c, ready(k), failures(k))] + Inputs(queue[size..], size, c, ready, failures, k + 1)
  }

  lemma {:induction false} RunConcat(s: State, a: seq<Input>, b: seq<Input>)
    ensures Run(s, a + b) == Run(Run(s, a), b)
    decreases |a|
  {
    if a == [] {
      assert a + b == b;
    } else {
      assert (a + b)[1..] == a[1..] + b;
      RunConcat(Step(s, a[0]), a[1..], b);
    }
  }

  lemma {:induction false} RunOneMore(s: State, xs: seq<Input>, x: Input)
    ensures Run(s, xs + [x]) == Step(Run(s, xs), x)
  {
    RunConcat(s, xs, [x]);
    assert [x][1..] == [];
    assert Run(Run(s, xs), [x]) == Run(Step(Run(s, xs), x), []);
  }

  // A whole number of packets of `size` bytes.
  predicate WholeOf(queue: seq<Byte>, size: nat)
    requires size >= 4
    decreases |queue|
  {
    queue == [] || (|queue| >= size && WholeOf(queue[size..], size))
  }

  lemma {:induction false} InputsAppend(queue: seq<Byte>, packet: seq<Byte>, size: nat, c: Config,
                                        ready: nat -> set<nat>, failures: nat -> nat, k: nat)
    requires size >= 4 && |packet| == size && WholeOf(queue, size)
    ensures WholeOf(queue + packet, size)
    ensures var all := Inputs(queue, size, c, ready, failures, k);
            Inputs(queue + packet, size, c, ready, failures, k) ==
            all + [Input(packet, c, ready(k + |all|), failures(k + |all|))]
    decreases |queue|
  {
    if queue == [] {
      assert queue + packet == packet && packet[..size] == packet && packet[size..] == [];
    } else {
      assert (queue + packet)[..size] == queue[..size] && (queue + packet)[size..] == queue[size..] + packet;
      InputsAppend(queue[size..], packet, size, c, ready, failures, k + 1);
    }
  }

  // The playback reader: the whole packets of the queue are injected in turn while the thread runs, the rest
  // stays. `running` is what the loop finds before each packet.
  method ReadPlaybackFMQ(demux: Demux, queue: seq<Byte>, size: nat, running: nat -> bool, ready: nat -> set<nat>,
                         failures: nat -> nat) returns (played: seq<Byte>, left: seq<Byte>)
    requires size >= 4
    modifies demux`cache, demux`device, demux`gone
    ensures queue == played + left && WholeOf(played, size)
    ensures var inputs := Inputs(played, size, Config(demux.descramblers, demux.filters), ready, failures, 0);
            demux.Snapshot() == Run(old(demux.Snapshot()), inputs) && (|left| < size || !running(|inputs|))
  {
    played, left := [], queue;
    var i := 0;
    ghost var c, s0 := Config(demux.descramblers, demux.filters), demux.Snapshot();
    while running(i) && |left| >= size
      invariant queue == played + left && WholeOf(played, size)
      invariant i == |Inputs(played, size, c, ready, failures, 0)|
      invariant demux.Snapshot() == Run(s0, Inputs(played, size, c, ready, failures, 0))
      decreases |left|
    {
      ghost var done, x := Inputs(played, size, c, ready, failures, 0), Input(left[..size], c, ready(i), failures(i));
      RunOneMore(s0, done, x);
      InputsAppend(played, left[..size], size, c, ready, failures, 0);
      demux.StartBroadcastTsFilter(left[..size], ready(i), failures(i));
      MoveOver(played, left, size);
      played, left, i := played + left[..size], left[size..], i + 1;
    }
  }

  lemma MoveOver(played: seq<Byte>, left: seq<Byte>, size: nat)
    requires size <= |left|
    ensures played + left == (played + left[..size]) + left[size..]
  {
    assert left == left[..size] + left[size..];
  }

  lemma DatasCons(x: Input, rest: seq<Input>)
    ensures Datas([x] + rest) == [x.data] + Datas(rest)
  {
  }

  lemma {:induction false} InputsAreSplit(queue: seq<Byte>, c: Config, ready: nat -> set<nat>, failures: nat -> nat,
                                          k: nat)
    ensures Datas(Inputs(queue, 188, c, ready, failures, k)) == Split(queue)
    decreases |queue|
  {
    if |queue| < 188 {
    } else {
      var x := Input(queue[..188], c, ready(k), failures(k));
      var rest := Inputs(queue[188..], 188, c, ready, failures, k + 1);
      InputsAreSplit(queue[188..], c, ready, failures, k + 1);
      DatasCons(x, rest);
    }
  }

  lemma {:induction false} InputsKeepConfig(queue: seq<Byte>, c: Config, ready: nat -> set<nat>,
                                            failures: nat -> nat, k: nat, i: nat)
    requires i < |Inputs(queue, 188, c, ready, failures, k)|
    ensures Inputs(queue, 188, c, ready, failures, k)[i].config == c
    decreases |queue|
  {
    if i == 0 {
    } else {
      InputsKeepConfig(queue[188..], c, ready, failures, k + 1, i - 1);
    }
  }

  // Playing a queue with at least one descrambler: for every filtered pid, the device and the cache together
  // hold the pid's packets of the queue, in order, whatever the descramblers do, exactly if none was dropped.
  lemma {:induction false} PlaybackAgrees(queue: seq<Byte>, c: Config, ready: nat -> set<nat>, failures: nat -> nat,
                                          pid: nat)
    requires pid in c.filters && c.descramblers != []
    ensures var s := Run(EMPTY, Inputs(queue, 188, c, ready, failures, 0));
            OfPid(Split(s.device + s.cache), pid) == OfPid(Split(queue), pid) <==>
            NeverDrops(EMPTY, Inputs(queue, 188, c, ready, failures, 0), pid)
  {
    InputsAreSplit(queue, c, ready, failures, 0);
    forall i | 0 <= i < |Inputs(queue, 188, c, ready, failures, 0)|
      ensures Inputs(queue, 188, c, ready, failures, 0)[i].config == c
    {
      InputsKeepConfig(queue, c, ready, failures, 0, i);
    }
    AgreesWithPassThrough(Inputs(queue, 188, c, ready, failures, 0), pid, Owned(c, pid));
  }
}
