/**
 Reading one PES packet from a demux filter: a shift register finds the start code in a byte stream, and
 the packet is put together from reads that may deliver less than was asked for.
 */
module PesAssembler {

  type Byte = x: int | 0 <= x < 256

  // ---------- the device ----------

  // How the driver answers one read: with some bytes, with the failure code, or with another error.
  datatype Reply = Deliver(n: nat) | Fail | Other
  datatype Code = Success | Failure | OtherError

  datatype Dev = Dev(stream: seq<Byte>, pos: nat, script: seq<Reply>)

  predicate ValidDev(d: Dev) {
    d.pos <= |d.stream|
  }

  datatype Answer = Answer(dev: Dev, code: Code, n: nat)

  // A read that succeeds delivers the next `n` bytes of the stream: no more than was asked for or is there,
  // and at least one unless none was asked for. Once the replies are used up every read fails.
  function Read(d: Dev, size: nat): (r: Answer)
    requires ValidDev(d)
    ensures r.dev.stream == d.stream && r.dev.pos == d.pos + r.n && ValidDev(r.dev) && r.n <= size
    ensures |d.script| == 0 ==> r.code.Failure?
    ensures |d.script| > 0 ==> |r.dev.script| < |d.script|
    ensures if r.code.Success? then size > 0 ==> r.n > 0 else r.n == 0
  {
    if |d.script| == 0 then Answer(d, Failure, 0)
    else
      var reply, rest := d.script[0], d.script[1..];
      if reply.Deliver? && reply.n <= size && d.pos + reply.n <= |d.stream| && (reply.n > 0 || size == 0) then
        Answer(Dev(d.stream, d.pos + reply.n, rest), Success, reply.n)
      else Answer(d.(script := rest), if reply.Other? then OtherError else Failure, 0)
  }

  // ---------- finding the start code ----------

  // The 40-bit shift register by its bytes, most significant first.
  datatype Reg = Reg(b4: Byte, b3: Byte, b2: Byte, b1: Byte, b0: Byte)

  const EMPTY := Reg(0, 0, 0, 0, 0)

  function Push(r: Reg, b: Byte): Reg {
    Reg(r.b3, r.b2, r.b1, r.b0, b)
  }

  // The two stream ids that are accepted, behind the prefix 00 00 01.
  predicate IsStart(r: Reg) {
    r.b3 == 0 && r.b2 == 0 && r.b1 == 1 && (r.b0 == 0xBD || r.b0 == 0xBF)
  }

  function Value(r: Reg): nat {
    FiveBytes(r.b4, r.b3, r.b2, r.b1, r.b0)
  }

  function FiveBytes(b4: nat, b3: nat, b2: nat, b1: nat, b0: nat): nat {
    b4 * 0x1_0000_0000 + b3 * 0x100_0000 + b2 * 0x1_0000 + b1 * 0x100 + b0
  }

  // `((h << 8) & 0xffffffff00) | b` keeps the low 32 bits and moves them up by one byte.
  lemma ShiftMaskOr(h: bv64, b: bv64)
    requires b < 0x100
    ensures ((h << 8) & 0xFF_FFFF_FF00) | b == (h & 0xFFFF_FFFF) * 0x100 + b
  {
  }

  lemma PushIsShift(r: Reg, b: Byte)
    ensures Value(Push(r, b)) == Value(r) % 0x1_0000_0000 * 0x100 + b
  {
    var low := FiveBytes(0, r.b3, r.b2, r.b1, r.b0);
    LowBytes(r);
    assert Value(Push(r, b)) == low * 0x100 + b;
  }

  // The four low bytes are the remainder of a division by 2^32.
  lemma LowBytes(r: Reg)
    ensures Value(r) % 0x1_0000_0000 == FiveBytes(0, r.b3, r.b2, r.b1, r.b0)
  {
    var low := FiveBytes(0, r.b3, r.b2, r.b1, r.b0);
    assert Value(r) == r.b4 as int * 0x1_0000_0000 + low && low < 0x1_0000_0000;
  }

  lemma StartByValue(r: Reg)
    ensures IsStart(r) <==> Value(r) % 0x1_0000_0000 == 0x1BD || Value(r) % 0x1_0000_0000 == 0x1BF
  {
    LowBytes(r);
  }

  datatype Scanned = NotFound(dev: Dev) | Found(dev: Dev, id: Byte)

  function Scan(d: Dev, h: Reg): (r: Scanned)
    requires ValidDev(d)
    ensures ValidDev(r.dev) && r.dev.stream == d.stream && r.dev.pos >= d.pos && (r.Found? ==> r.dev.pos > d.pos)
    decreases |d.script|
  {
    var a := Read(d, 1);
    if !a.code.Success? then NotFound(a.dev)
    else
      var h' := Push(h, d.stream[d.pos]);
      if IsStart(h') then Found(a.dev, d.stream[d.pos]) else Scan(a.dev, h')
  }

  // The k-th byte before position `end` of what was read from position `from` on, 0 where nothing was read.
  function Back(stream: seq<Byte>, from: nat, end: nat, k: nat): Byte
    requires end <= |stream|
  {
    if from + k < end then stream[end - 1 - k] else 0
  }

  // The last four bytes read, padded with zeros on the left, are a start code.
  predicate EndsInStart(stream: seq<Byte>, from: nat, end: nat)
    requires end <= |stream|
  {
    && Back(stream, from, end, 3) == 0 && Back(stream, from, end, 2) == 0 && Back(stream, from, end, 1) == 1
    && (Back(stream, from, end, 0) == 0xBD || Back(stream, from, end, 0) == 0xBF)
  }

  function Register(stream: seq<Byte>, from: nat, end: nat): Reg
    requires end <= |stream|
  {
    Reg(Back(stream, from, end, 4), Back(stream, from, end, 3), Back(stream, from, end, 2), Back(stream, from, end, 1),
        Back(stream, from, end, 0))
  }

  // Of the positions the scan has passed, the last alone ends in a start code if one was found, and none
  // does otherwise: the scan locks at the first start code.
  lemma {:induction false} ScanFindsFirst(d: Dev, from: nat, h: Reg, r: Scanned, i: nat)
    requires ValidDev(d) && from <= d.pos && h == Register(d.stream, from, d.pos) && r == Scan(d, h)
    requires d.pos < i <= r.dev.pos
    ensures EndsInStart(d.stream, from, i) <==> r.Found? && i == r.dev.pos
    ensures r.Found? && i == r.dev.pos ==> r.id == d.stream[i - 1]
    decreases |d.script|
  {
    var a := Read(d, 1);
    var h' := Push(h, d.stream[d.pos]);
    assert h' == Register(d.stream, from, a.dev.pos);
    if !IsStart(h') && a.dev.pos < i {
      ScanFindsFirst(a.dev, from, h', r, i);
    }
  }

  // From an empty register the scan locks at the first start code of what it reads.
  lemma {:induction false} LocksAtFirst(d: Dev, h: Reg, s: Scanned, i: nat)
    requires ValidDev(d) && h == EMPTY && s == Scan(d, h) && d.pos < i <= s.dev.pos
    ensures EndsInStart(d.stream, d.pos, i) <==> s.Found? && i == s.dev.pos
    ensures s.Found? && i == s.dev.pos ==> s.id == d.stream[i - 1]
  {
    assert h == Register(d.stream, d.pos, d.pos);
    ScanFindsFirst(d, d.pos, h, s, i);
  }

  // How many bytes the driver delivers one by one before it first does otherwise, of `n` that are there.
  function Singles(script: seq<Reply>, n: nat): (k: nat)
    ensures k <= n && k <= |script|
  {
    if script == [] || n == 0 || script[0] != Deliver(1) then 0 else 1 + Singles(script[1..], n - 1)
  }

  // By the driver's replies alone: the scan goes on while single bytes are delivered. It stops behind the first
  // of them that ends in a start code, and finds nothing exactly if none does.
  lemma {:induction false} ScanExactly(d: Dev, n: nat, r: Scanned)
    requires ValidDev(d) && n == Singles(d.script, |d.stream| - d.pos) && r == Scan(d, EMPTY)
    ensures r.Found? <==> exists i :: d.pos < i <= d.pos + n && EndsInStart(d.stream, d.pos, i)
    ensures r.Found? ==>
              && d.pos < r.dev.pos <= d.pos + n && EndsInStart(d.stream, d.pos, r.dev.pos)
              && r.id == d.stream[r.dev.pos - 1] && r.dev.script == d.script[r.dev.pos - d.pos..]
              && forall i :: d.pos < i < r.dev.pos ==> !EndsInStart(d.stream, d.pos, i)
    ensures r.NotFound? ==> r.dev.pos == d.pos + n && r.dev.script == d.script[n..][if n < |d.script| then 1 else 0..]
  {
    ScanCounts(d, EMPTY, r, n);
    forall i | d.pos < i <= r.dev.pos
      ensures EndsInStart(d.stream, d.pos, i) <==> r.Found? && i == r.dev.pos
    {
      LocksAtFirst(d, EMPTY, r, i);
    }
    if r.Found? {
      LocksAtFirst(d, EMPTY, r, r.dev.pos);
    }
  }

  lemma {:induction false} ScanCounts(d: Dev, h: Reg, r: Scanned, n: nat)
    requires ValidDev(d) && n == Singles(d.script, |d.stream| - d.pos) && r == Scan(d, h)
    ensures r.dev.pos <= d.pos + n && r.dev.stream == d.stream
    ensures r.Found? ==> r.dev.script == d.script[r.dev.pos - d.pos..]
    ensures r.NotFound? ==> r.dev.pos == d.pos + n && r.dev.script == d.script[n..][if n < |d.script| then 1 else 0..]
    decreases |d.script|
  {
    var a := Read(d, 1);
    if a.code.Success? {
      var h' := Push(h, d.stream[d.pos]);
      if !IsStart(h') {
        ScanCounts(a.dev, h', r, n - 1);
        assert d.script[1..][r.dev.pos - a.dev.pos..] == d.script[r.dev.pos - d.pos..];
        assert d.script[1..][n - 1..] == d.script[n..];
      }
    } else {
      assert d.script[0..] == d.script;
    }
  }

  // ---------- time stamps ----------

  // The 33-bit value of a five-byte time stamp field; the prefix and marker bits are not looked at.
  function TimeStamp(b: seq<Byte>): (ts: nat)
    requires |b| == 5
    ensures ts < 0x2_0000_0000
  {
    FromBits(b[0], b[1], b[2], b[3], b[4])
  }

  function FromBits(b0: nat, b1: nat, b2: nat, b3: nat, b4: nat): (ts: nat)
    ensures b1 < 256 && b2 < 256 && b3 < 256 && b4 < 256 ==> ts < 0x2_0000_0000
  {
    b0 / 2 % 8 * 0x4000_0000 + b1 * 0x40_0000 + b2 / 2 * 0x8000 + b3 * 0x80 + b4 / 2
  }

  // The shifts and ors of the code are this sum, because the parts do not overlap.
  lemma TimeStampIsShiftOr(b0: bv64, b1: bv64, b2: bv64, b3: bv64, b4: bv64)
    requires b0 < 256 && b1 < 256 && b2 < 256 && b3 < 256 && b4 < 256
    ensures ((b0 & 0xE) << 29) | ((b1 & 0xFF) << 22) | ((b2 & 0xFE) << 14) | ((b3 & 0xFF) << 7) | ((b4 & 0xFE) >> 1)
         == ((b0 >> 1) & 7) * 0x4000_0000 + b1 * 0x40_0000 + (b2 >> 1) * 0x8000 + b3 * 0x80 + (b4 >> 1)
  {
  }

  // The field as section 2.4.3.6 of ISO/IEC 13818-1 lays it out: a four-bit prefix, then 3, 15 and 15
  // bits, each followed by a marker bit.
  function EncodeTimeStamp(prefix: nat, ts: nat): (b: seq<Byte>)
    requires prefix < 16 && ts < 0x2_0000_0000
    ensures |b| == 5
  {
    var hi, mid, lo := ts / 0x4000_0000, ts / 0x8000 % 0x8000, ts % 0x8000;
    assert hi < 8;
    [prefix * 16 + hi * 2 + 1, mid / 0x80, mid % 0x80 * 2 + 1, lo / 0x80, lo % 0x80 * 2 + 1]
  }

  lemma PartsRoundTrip(prefix: nat, hi: nat, mid: nat, lo: nat)
    requires hi < 8
    ensures FromBits(prefix * 16 + hi * 2 + 1, mid / 0x80, mid % 0x80 * 2 + 1, lo / 0x80, lo % 0x80 * 2 + 1)
         == hi * 0x4000_0000 + mid * 0x8000 + lo
  {
    var b0 := prefix * 16 + hi * 2 + 1;
    assert b0 / 2 == prefix * 8 + hi && b0 / 2 % 8 == hi;
    assert (mid % 0x80 * 2 + 1) / 2 == mid % 0x80 && (lo % 0x80 * 2 + 1) / 2 == lo % 0x80;
  }

  lemma TimeStampRoundTrip(prefix: nat, ts: nat)
    requires prefix < 16 && ts < 0x2_0000_0000
    ensures TimeStamp(EncodeTimeStamp(prefix, ts)) == ts
  {
    PartsRoundTrip(prefix, ts / 0x4000_0000, ts / 0x8000 % 0x8000, ts % 0x8000);
    assert ts / 0x4000_0000 == ts / 0x8000 / 0x8000;
  }

  lemma PartsOf(hi: nat, mid: nat, lo: nat)
    requires mid < 0x8000 && lo < 0x8000
    ensures var ts := hi * 0x4000_0000 + mid * 0x8000 + lo;
            ts / 0x4000_0000 == hi && ts / 0x8000 % 0x8000 == mid && ts % 0x8000 == lo
  {
    var ts := hi * 0x4000_0000 + mid * 0x8000 + lo;
    assert ts == (hi * 0x8000 + mid) * 0x8000 + lo;
    assert ts / 0x8000 == hi * 0x8000 + mid;
  }

  // Fifteen bits in two bytes, the second of which ends in a marker bit.
  lemma MarkedBytes(b1: Byte, b2: Byte)
    ensures var part: nat := b1 * 0x80 + b2 / 2;
            part < 0x8000 && part / 0x80 == b1 && (part % 0x80 * 2 + 1 == b2 <==> b2 % 2 == 1)
  {
    assert b2 == b2 / 2 * 2 + b2 % 2;
  }

  lemma FirstByte(b0: Byte)
    ensures b0 / 16 * 16 + b0 / 2 % 8 * 2 + 1 == b0 <==> b0 % 2 == 1
  {
  }

  // Conversely, a field is the encoding of its value exactly when its marker bits are set.
  lemma EncodeTimeStampOf(b: seq<Byte>)
    requires |b| == 5
    ensures b == EncodeTimeStamp(b[0] / 16, TimeStamp(b)) <==> b[0] % 2 == 1 && b[2] % 2 == 1 && b[4] % 2 == 1
  {
    var b1: nat, b2: nat, b3: nat, b4: nat := b[1], b[2], b[3], b[4];
    var hi, mid, lo := b[0] / 2 % 8, b1 * 0x80 + b2 / 2, b3 * 0x80 + b4 / 2;
    assert TimeStamp(b) == hi * 0x4000_0000 + mid * 0x8000 + lo;
    FirstByte(b[0]);
    MarkedBytes(b[1], b[2]);
    MarkedBytes(b[3], b[4]);
    PartsOf(hi, mid, lo);
    assert b == [b[0], b[1], b[2], b[3], b[4]];
  }

  // ---------- assembling the packet ----------

  datatype Outcome =
    | Nothing
    | Emitted(pes: seq<Byte>)
    | Undefined  // a time stamp is read beyond the end of the packet's buffer

  function Zeros(n: nat): (z: seq<Byte>)
    ensures |z| == n && forall k :: 0 <= k < n ==> z[k] == 0
  {
    seq(n, _ => 0)
  }

  // `bytes` stored at an offset.
  function Store(buf: seq<Byte>, off: nat, bytes: seq<Byte>): (r: seq<Byte>)
    requires off + |bytes| <= |buf|
    ensures |r| == |buf|
  {
    buf[..off] + bytes + buf[off + |bytes|..]
  }

  datatype Result = Result(dev: Dev, outcome: Outcome)

  datatype Reads = Reads(dev: Dev, all: bool)

  // The reads of the payload loop: `left` bytes are still to come. They end when all have come, or with a
  // failure before that; another error is passed over.
  function PayloadReads(d: Dev, left: nat): (r: Reads)
    requires ValidDev(d)
    ensures r.dev.stream == d.stream && d.pos <= r.dev.pos <= |d.stream|
    ensures if r.all then r.dev.pos == d.pos + left else r.dev.pos < d.pos + left
    decreases |d.script|
  {
    if left == 0 then Reads(d, true)
    else
      var a := Read(d, left);
      if a.code.Failure? then Reads(a.dev, false) else PayloadReads(a.dev, left - a.n)
  }

  function Sum(rs: seq<Reply>): nat {
    if rs == [] then 0 else (if rs[0].Deliver? then rs[0].n else 0) + Sum(rs[1..])
  }

  // Replies that bring `left` bytes in any split: no failure among them, errors of another kind anywhere but at
  // the end.
  predicate Splits(rs: seq<Reply>, left: nat) {
    && (forall i :: 0 <= i < |rs| ==> rs[i].Other? || (rs[i].Deliver? && rs[i].n > 0))
    && Sum(rs) == left && (rs != [] ==> rs[|rs| - 1].Deliver?)
  }

  // However a payload is split, all of it is read.
  lemma {:induction false} SplitReadsAll(d: Dev, rs: seq<Reply>, left: nat)
    requires ValidDev(d) && rs <= d.script && Splits(rs, left) && d.pos + left <= |d.stream|
    ensures PayloadReads(d, left) == Reads(Dev(d.stream, d.pos + left, d.script[|rs|..]), true)
    decreases |rs|
  {
    if rs == [] {
      assert d.script[0..] == d.script;
    } else {
      SplitTail(rs, left);
      var n := if rs[0].Deliver? then rs[0].n else 0;
      assert rs[1..] <= d.script[1..] && d.script[1..][|rs[1..]|..] == d.script[|rs|..];
      SplitReadsAll(Dev(d.stream, d.pos + n, d.script[1..]), rs[1..], left - n);
    }
  }

  lemma SplitTail(rs: seq<Reply>, left: nat)
    requires rs != [] && Splits(rs, left)
    ensures var n := if rs[0].Deliver? then rs[0].n else 0;
            0 < left && n <= left && Splits(rs[1..], left - n)
  {
    SplitSome(rs);
    forall i | 0 <= i < |rs[1..]| ensures rs[1..][i].Other? || (rs[1..][i].Deliver? && rs[1..][i].n > 0) {
      assert rs[1..][i] == rs[i + 1];
    }
  }

  // Replies that end with bytes bring some.
  lemma {:induction false} SplitSome(rs: seq<Reply>)
    requires rs != [] && rs[|rs| - 1].Deliver?
    ensures Sum(rs) >= rs[|rs| - 1].n
  {
    if |rs| == 1 {
    } else {
      SplitSome(rs[1..]);
    }
  }

  // And only so: a payload is read whole exactly if the next replies bring it in some split. A failure, or the
  // end of the replies, before its last byte loses it.
  lemma {:induction false} PayloadExactly(d: Dev, left: nat)
    requires ValidDev(d)
    ensures PayloadReads(d, left).all <==>
            d.pos + left <= |d.stream| && exists k :: 0 <= k <= |d.script| && Splits(d.script[..k], left)
    ensures PayloadReads(d, left).all <==> PayloadReads(d, left).dev.pos == d.pos + left
  {
    if PayloadReads(d, left).all {
      var k := AllComesSplit(d, left);
      assert Splits(d.script[..k], left);
    }
    if d.pos + left <= |d.stream| {
      forall k | 0 <= k <= |d.script| && Splits(d.script[..k], left) ensures PayloadReads(d, left).all {
        SplitReadsAll(d, d.script[..k], left);
      }
    }
  }

  lemma {:induction false} AllComesSplit(d: Dev, left: nat) returns (k: nat)
    requires ValidDev(d) && PayloadReads(d, left).all
    ensures k <= |d.script| && Splits(d.script[..k], left)
    decreases |d.script|
  {
    if left == 0 {
      return 0;
    }
    var a := Read(d, left);
    var rest := AllComesSplit(a.dev, left - a.n);
    k := rest + 1;
    assert d.script[..k] == [d.script[0]] + d.script[1..][..rest];
    assert d.script[..k][1..] == d.script[1..][..rest];
  }

  // Reading the optional header fields and then the payload, unless the time stamp is zero.
  function HeaderAndPayload(d: Dev, buf: seq<Byte>): Result
    requires ValidDev(d) && |buf| >= 9 && |buf| - 9 >= buf[8]
  {
    var a := Read(d, buf[8]);
    if !a.code.Success? then Result(a.dev, Emitted(buf))
    else if |buf| < 14 || (buf[7] >= 0xC0 && |buf| < 19) then Result(a.dev, Undefined)
    else
      var buf' := Store(buf, 9, d.stream[d.pos..a.dev.pos]);
      if TimeStamp(buf'[9..14]) == 0 then Result(a.dev, Emitted(buf'))
      else PayloadPart(a.dev, buf', 9 + a.n)
  }

  // Reading the payload into the buffer from `off` on.
  function PayloadPart(d: Dev, buf: seq<Byte>, off: nat): Result
    requires ValidDev(d) && off <= |buf|
  {
    var rest := PayloadReads(d, |buf| - off);
    Result(rest.dev, if rest.all then Emitted(Store(buf, off, d.stream[d.pos..rest.dev.pos])) else Nothing)
  }

  function Be16(hi: nat, lo: nat): nat {
    hi * 0x100 + lo
  }

  lemma LengthIsShiftOr(hi: bv16, lo: bv16)
    requires hi < 0x100 && lo < 0x100
    ensures Be16(hi as int, lo as int) == ((hi << 8) | lo) as int
  {
    assert (hi << 8) | lo == hi * 0x100 + lo;
  }

  // The k-th byte of a read; where it fell short, the zero that was there before.
  function ByteOr0(d: Dev, a: Answer, k: nat): Byte
    requires ValidDev(d) && d.pos + a.n <= |d.stream|
  {
    if k < a.n then d.stream[d.pos + k] else 0
  }

  // From the length field on, behind a start code that ends in `id`.
  function Packet(d: Dev, id: Byte): Result
    requires ValidDev(d)
  {
    var a := Read(d, 2);
    var hi, lo := ByteOr0(d, a, 0), ByteOr0(d, a, 1);
    var len := Be16(hi, lo);
    if len < 3 then Result(a.dev, Nothing)
    else
      var a' := Read(a.dev, 3);
      var buf := Store([0, 0, 1, id, hi, lo] + Zeros(len), 6, d.stream[a.dev.pos..a'.dev.pos]);
      if len - 3 < buf[8] || buf[7] < 0x80 then Result(a'.dev, Nothing) else HeaderAndPayload(a'.dev, buf)
  }

  function Combine(d: Dev): Result
    requires ValidDev(d)
  {
    var s := Scan(d, EMPTY);
    if s.NotFound? then Result(s.dev, Nothing) else Packet(s.dev, s.id)
  }

  // What a read answers, by the next reply: bytes if it brings no more than was asked for and is there, the
  // failure code for anything else but another error.
  lemma ReadExactly(d: Dev, size: nat, n: nat)
    requires ValidDev(d)
    ensures var a, ok := Read(d, size), 0 < n <= size && d.pos + n <= |d.stream|;
            && (d.script == [] ==> a == Answer(d, Failure, 0))
            && (d.script != [] && d.script[0].Fail? ==> a == Answer(Dev(d.stream, d.pos, d.script[1..]), Failure, 0))
            && (d.script != [] && d.script[0].Other? ==>
                  a == Answer(Dev(d.stream, d.pos, d.script[1..]), OtherError, 0))
            && (d.script != [] && d.script[0] == Deliver(n) && 0 < n ==>
                  a == if ok then Answer(Dev(d.stream, d.pos + n, d.script[1..]), Success, n)
                       else Answer(Dev(d.stream, d.pos, d.script[1..]), Failure, 0))
            && (d.script != [] && d.script[0] == Deliver(0) ==>
                  a == Answer(Dev(d.stream, d.pos, d.script[1..]), if size == 0 then Success else Failure, 0))
  {
  }

  // Nothing is emitted, and nothing more is read, when the length field brings no byte.
  lemma NoLength(d: Dev, id: Byte)
    requires ValidDev(d)
    requires d.script == [] || d.script[0] !in {Deliver(1), Deliver(2)} || d.pos + d.script[0].n > |d.stream|
    ensures Packet(d, id) == Result(Dev(d.stream, d.pos, if d.script == [] then [] else d.script[1..]), Nothing)
  {
  }

  // When it brings one byte, the other counts as zero.
  lemma HalfLength(d: Dev, id: Byte)
    requires ValidDev(d) && d.pos < |d.stream| && d.script == [Deliver(1), Fail] && d.stream[d.pos] > 0
    ensures Packet(d, id) == Result(Dev(d.stream, d.pos + 1, []), Nothing)
  {
    assert d.script[1..] == [Fail] && [Fail][1..] == [];
    var len := Be16(d.stream[d.pos], 0);
    var start := [0, 0, 1, id, d.stream[d.pos], 0] + Zeros(len);
    assert Store(start, 6, d.stream[d.pos + 1..d.pos + 1]) == start && start[7] == 0;
  }

  // The optional fields were read: the time stamps are read out of range exactly if the packet's buffer is too
  // short for those that the two upper bits of the flags announce.
  lemma UndefinedExactly(d: Dev, buf: seq<Byte>, flags: bv8)
    requires ValidDev(d) && |buf| >= 9 && |buf| - 9 >= buf[8] && Read(d, buf[8]).code.Success?
    requires flags as int == buf[7] && buf[7] >= 0x80
    ensures HeaderAndPayload(d, buf).outcome.Undefined? <==>
            if flags & 0xC0 == 0xC0 then |buf| < 19 else flags & 0xC0 == 0x80 && |buf| < 14
  {
    FlagsAreMask(flags);
  }

  lemma FlagsAreMask(flags: bv8)
    ensures flags & 0xC0 == 0xC0 <==> flags >= 0xC0
    ensures flags & 0xC0 == 0x80 <==> 0x80 <= flags < 0xC0
  {
  }

  // ---------- what is emitted ----------

  // The packet that the stream holds at position `p`, behind a start code ending in `id`.
  function InStream(stream: seq<Byte>, p: nat, id: Byte): (pes: seq<Byte>)
    requires p + 2 <= |stream| && p + 2 + Be16(stream[p], stream[p + 1]) <= |stream|
    ensures |pes| == Be16(stream[p], stream[p + 1]) + 6
  {
    [0, 0, 1, id] + stream[p..p + 2 + Be16(stream[p], stream[p + 1])]
  }

  // The two fixed reads behind the start code bring all their bytes.
  predicate FixedReadsWhole(d: Dev)
    requires ValidDev(d)
  {
    Read(d, 2).n == 2 && Read(Read(d, 2).dev, 3).n == 3
  }

  // The length leaves room for the header, and the flags announce a time stamp.
  predicate Usable(stream: seq<Byte>, p: nat)
    requires p + 5 <= |stream|
  {
    Be16(stream[p], stream[p + 1]) >= 3 + stream[p + 4] as int && stream[p + 3] >= 0x80
  }

  lemma FixedFields(d: Dev, id: Byte)
    requires ValidDev(d) && FixedReadsWhole(d)
    ensures d.pos + 5 <= |d.stream|
    ensures if Usable(d.stream, d.pos)
            then Packet(d, id) == HeaderAndPayload(Read(Read(d, 2).dev, 3).dev, FixedBuffer(d.stream, d.pos, id))
            else Packet(d, id).outcome.Nothing?
  {
    var p := d.pos;
    if Be16(d.stream[p], d.stream[p + 1]) >= 3 {
      StoresFixed(d.stream, p, id);
    }
  }

  lemma StoresFixed(stream: seq<Byte>, p: nat, id: Byte)
    requires p + 5 <= |stream| && Be16(stream[p], stream[p + 1]) >= 3
    ensures var len := Be16(stream[p], stream[p + 1]);
            Store([0, 0, 1, id, stream[p], stream[p + 1]] + Zeros(len), 6, stream[p + 2..p + 5]) ==
            FixedBuffer(stream, p, id)
  {
    var len := Be16(stream[p], stream[p + 1]);
    var start := [0, 0, 1, id, stream[p], stream[p + 1]] + Zeros(len);
    assert start[..6] == [0, 0, 1, id, stream[p], stream[p + 1]] && start[9..] == Zeros(len - 3);
    assert stream[p..p + 5] == [stream[p], stream[p + 1]] + stream[p + 2..p + 5];
  }

  // The buffer once the fixed fields are stored.
  function FixedBuffer(stream: seq<Byte>, p: nat, id: Byte): (buf: seq<Byte>)
    requires p + 5 <= |stream| && Be16(stream[p], stream[p + 1]) >= 3
    ensures |buf| == Be16(stream[p], stream[p + 1]) + 6
    ensures buf[7] == stream[p + 3] && buf[8] == stream[p + 4]
  {
    [0, 0, 1, id] + stream[p..p + 5] + Zeros(Be16(stream[p], stream[p + 1]) - 3)
  }

  // The time stamp that the code reads from the buffer once the header fields are stored.
  function StoredTimeStamp(buf: seq<Byte>, bytes: seq<Byte>): nat
    requires |buf| >= 14 && 9 + |bytes| <= |buf|
  {
    TimeStamp(Store(buf, 9, bytes)[9..14])
  }

  lemma ReadsTimeStamp(buf: seq<Byte>, stream: seq<Byte>, q: nat, bytes: seq<Byte>)
    requires |buf| >= 14 && 5 <= |bytes| && 9 + |bytes| <= |buf|
    requires q + |bytes| <= |stream| && bytes == stream[q..q + |bytes|]
    ensures StoredTimeStamp(buf, bytes) == TimeStamp(stream[q..q + 5])
  {
  }

  lemma StoreNothing(buf: seq<Byte>, off: nat, stream: seq<Byte>, p: nat)
    requires off <= |buf| && p <= |stream|
    ensures Store(buf, off, stream[p..p]) == buf
  {
  }

  lemma StoreTwice(buf: seq<Byte>, off: nat, stream: seq<Byte>, i: nat, j: nat, k: nat)
    requires i <= j <= k <= |stream| && off + (k - i) <= |buf|
    ensures Store(Store(buf, off, stream[i..j]), off + (j - i), stream[j..k]) == Store(buf, off, stream[i..k])
  {
  }

  // With a time stamp, what is emitted is the fixed part and then the stream, if that could be read.
  lemma HeaderCases(d: Dev, buf: seq<Byte>, a: Answer, r: Result)
    requires ValidDev(d) && |buf| >= 9 && |buf| - 9 >= buf[8] && a == Read(d, buf[8]) && r == HeaderAndPayload(d, buf)
    requires a.code.Success? && |buf| >= (if buf[7] >= 0xC0 then 19 else 14)
    ensures var bytes := d.stream[d.pos..a.dev.pos];
            && (StoredTimeStamp(buf, bytes) == 0 ==> r == Result(a.dev, Emitted(Store(buf, 9, bytes))))
            && (StoredTimeStamp(buf, bytes) != 0 ==>
                  a.dev.pos <= r.dev.pos <= |d.stream| && r.dev.pos <= d.pos + |buf| - 9 &&
                  r.outcome == if r.dev.pos == d.pos + |buf| - 9
                               then Emitted(buf[..9] + d.stream[d.pos..r.dev.pos]) else Nothing)
  {
  }

  // The time stamp field arrives whole: the one read for the optional fields brings its five bytes.
  predicate TimeStampWhole(d: Dev)
    requires ValidDev(d) && FixedReadsWhole(d) && d.pos + 5 <= |d.stream|
  {
    var a := Read(Read(Read(d, 2).dev, 3).dev, d.stream[d.pos + 4]);
    a.code.Success? && a.n >= 5
  }

  // Behind the fixed fields, whose reads ended at position `p + 5`.
  predicate HeaderWhole(d: Dev, p: nat, id: Byte, r: Result) {
    && ValidDev(d) && d.pos == p + 5 && Usable(d.stream, p)
    && r == HeaderAndPayload(d, FixedBuffer(d.stream, p, id))
    && Read(d, d.stream[p + 4]).code.Success? && Read(d, d.stream[p + 4]).n >= 5
    && (d.stream[p + 3] >= 0xC0 ==> Be16(d.stream[p], d.stream[p + 1]) >= 13)
  }

  lemma BehindFixed(d: Dev, p: nat, id: Byte, r: Result)
    requires HeaderWhole(d, p, id, r) && TimeStamp(d.stream[p + 5..p + 10]) != 0
    ensures p + 10 <= r.dev.pos <= |d.stream| && r.dev.pos <= p + 2 + Be16(d.stream[p], d.stream[p + 1])
    ensures r.outcome == if r.dev.pos == p + 2 + Be16(d.stream[p], d.stream[p + 1])
                         then Emitted(InStream(d.stream, p, id)) else Nothing
  {
    var buf := FixedBuffer(d.stream, p, id);
    var a := Read(d, buf[8]);
    ReadsTimeStamp(buf, d.stream, p + 5, d.stream[p + 5..a.dev.pos]);
    HeaderCases(d, buf, a, r);
    FixedThenStream(d.stream, p, id, r.dev.pos);
  }

  lemma FixedThenStream(stream: seq<Byte>, p: nat, id: Byte, end: nat)
    requires p + 5 <= end <= |stream| && Be16(stream[p], stream[p + 1]) >= 3
    ensures FixedBuffer(stream, p, id)[..9] + stream[p + 5..end] == [0, 0, 1, id] + stream[p..end]
  {
  }

  lemma BehindFixedZero(d: Dev, p: nat, id: Byte, r: Result)
    requires HeaderWhole(d, p, id, r) && TimeStamp(d.stream[p + 5..p + 10]) == 0
    ensures p + 10 <= r.dev.pos <= |d.stream| && r.dev.pos <= p + 2 + Be16(d.stream[p], d.stream[p + 1])
    ensures r.outcome == Emitted(ZeroEnded(d.stream, p, id, r.dev.pos))
  {
    var buf := FixedBuffer(d.stream, p, id);
    var a := Read(d, buf[8]);
    ReadsTimeStamp(buf, d.stream, p + 5, d.stream[p + 5..a.dev.pos]);
    HeaderCases(d, buf, a, r);
    StoreBehindFixed(d.stream, p, id, d.stream[p + 5..a.dev.pos]);
  }

  // The packet at `p` up to stream position `end`, and zeros for the rest of its length.
  function ZeroEnded(stream: seq<Byte>, p: nat, id: Byte, end: nat): (pes: seq<Byte>)
    requires p + 2 <= end <= |stream| && end <= p + 2 + Be16(stream[p], stream[p + 1])
    ensures |pes| == Be16(stream[p], stream[p + 1]) + 6
  {
    [0, 0, 1, id] + stream[p..end] + Zeros(p + 2 + Be16(stream[p], stream[p + 1]) - end)
  }

  // A packet whose fixed fields and time stamp arrive whole. With a time stamp other than zero, the whole
  // packet as it stands in the stream is emitted, however the payload reads are split, exactly when all of
  // it could be read; nothing is emitted otherwise. With a zero time stamp the payload is not read, and the
  // emitted packet ends in zeros instead.
  lemma Reassembly(d: Dev, id: Byte)
    requires ValidDev(d) && FixedReadsWhole(d)
    requires d.pos + 5 <= |d.stream| && Usable(d.stream, d.pos) && TimeStampWhole(d)
    requires d.stream[d.pos + 3] >= 0xC0 ==> Be16(d.stream[d.pos], d.stream[d.pos + 1]) >= 13
    ensures var p, r, end := d.pos, Packet(d, id), d.pos + 2 + Be16(d.stream[d.pos], d.stream[d.pos + 1]);
            && p + 10 <= r.dev.pos <= |d.stream| && r.dev.pos <= end
            && r.outcome ==
               if TimeStamp(d.stream[p + 5..p + 10]) == 0 then Emitted(ZeroEnded(d.stream, p, id, r.dev.pos))
               else if r.dev.pos == end then Emitted(InStream(d.stream, p, id))
               else Nothing
  {
    FixedFields(d, id);
    var d2 := Read(Read(d, 2).dev, 3).dev;
    if TimeStamp(d.stream[d.pos + 5..d.pos + 10]) == 0 {
      BehindFixedZero(d2, d.pos, id, Packet(d, id));
    } else {
      BehindFixed(d2, d.pos, id, Packet(d, id));
    }
  }

  // The fixed fields and the time stamp arrive whole, and leave room for each other.
  predicate Complete(d: Dev) {
    && ValidDev(d) && FixedReadsWhole(d)
    && d.pos + 10 <= |d.stream| && Usable(d.stream, d.pos) && TimeStampWhole(d)
    && (d.stream[d.pos + 3] >= 0xC0 ==> Be16(d.stream[d.pos], d.stream[d.pos + 1]) >= 13)
  }

  // The device behind the fixed fields and the optional ones.
  function BehindHeader(d: Dev): Dev
    requires ValidDev(d) && FixedReadsWhole(d) && d.pos + 5 <= |d.stream|
  {
    Read(Read(Read(d, 2).dev, 3).dev, d.stream[d.pos + 4]).dev
  }

  // The next replies bring the stream up to position `end` in some split.
  predicate BringsRest(d: Dev, end: nat) {
    d.pos <= end <= |d.stream| && exists k :: 0 <= k <= |d.script| && Splits(d.script[..k], end - d.pos)
  }

  // By the replies alone: with a time stamp, the packet is emitted exactly if the replies behind the header
  // bring the rest of it in some split, and otherwise nothing is.
  lemma ReassemblyExactly(d: Dev, id: Byte)
    requires Complete(d) && TimeStamp(d.stream[d.pos + 5..d.pos + 10]) != 0
    ensures var d3, end := BehindHeader(d), d.pos + 2 + Be16(d.stream[d.pos], d.stream[d.pos + 1]);
            && d3.pos <= end
            && Packet(d, id).outcome == if BringsRest(d3, end) then Emitted(InStream(d.stream, d.pos, id)) else Nothing
  {
    FixedFields(d, id);
    BehindFixedExactly(Read(Read(d, 2).dev, 3).dev, d.pos, id, Packet(d, id), BehindHeader(d));
  }

  lemma BehindFixedExactly(d: Dev, p: nat, id: Byte, r: Result, d3: Dev)
    requires HeaderWhole(d, p, id, r) && TimeStamp(d.stream[p + 5..p + 10]) != 0
    requires d3 == Read(d, d.stream[p + 4]).dev
    ensures var end := p + 2 + Be16(d.stream[p], d.stream[p + 1]);
            && d3.pos <= end
            && r.outcome == if BringsRest(d3, end) then Emitted(InStream(d.stream, p, id)) else Nothing
  {
    var left := p + 2 + Be16(d.stream[p], d.stream[p + 1]) - d3.pos;
    BehindFixed(d, p, id, r);
    PayloadAfterHeader(d, p, id, r, Read(d, d.stream[p + 4]), FixedBuffer(d.stream, p, id), left);
    PayloadExactly(d3, left);
  }

  lemma {:induction false} PayloadAfterHeader(d: Dev, p: nat, id: Byte, r: Result, a: Answer, buf: seq<Byte>, left: nat)
    requires HeaderWhole(d, p, id, r) && TimeStamp(d.stream[p + 5..p + 10]) != 0
    requires buf == FixedBuffer(d.stream, p, id) && a == Read(d, buf[8]) && left == |buf| - 9 - a.n
    ensures r.dev == PayloadReads(a.dev, left).dev
  {
    ReadsTimeStamp(buf, d.stream, p + 5, d.stream[p + 5..a.dev.pos]);
    HeaderThenPayload(d, buf, a, r, left);
  }

  lemma {:induction false} HeaderThenPayload(d: Dev, buf: seq<Byte>, a: Answer, r: Result, left: nat)
    requires ValidDev(d) && |buf| >= 9 && |buf| - 9 >= buf[8] && a == Read(d, buf[8]) && a.code.Success?
    requires |buf| >= (if buf[7] >= 0xC0 then 19 else 14) && StoredTimeStamp(buf, d.stream[d.pos..a.dev.pos]) != 0
    requires r == HeaderAndPayload(d, buf) && left == |buf| - 9 - a.n
    ensures r.dev == PayloadReads(a.dev, left).dev
  {
    var filled := Store(buf, 9, d.stream[d.pos..a.dev.pos]);
    assert r == PayloadPart(a.dev, filled, 9 + a.n);
    PartReads(a.dev, filled, 9 + a.n, left);
  }

  lemma {:induction false} PartReads(d: Dev, buf: seq<Byte>, off: nat, left: nat)
    requires ValidDev(d) && off + left == |buf|
    ensures PayloadPart(d, buf, off).dev == PayloadReads(d, left).dev
  {
  }

  // The stream holds a whole packet at `p` that has a time stamp other than zero.
  predicate Holds(stream: seq<Byte>, p: nat) {
    && p + 10 <= |stream| && Usable(stream, p)
    && (stream[p + 3] >= 0xC0 ==> Be16(stream[p], stream[p + 1]) >= 13)
    && p + 2 + Be16(stream[p], stream[p + 1]) <= |stream| && TimeStamp(stream[p + 5..p + 10]) != 0
  }

  // A packet from the replies: the fixed fields, `h` bytes of the optional ones, and the rest in any split.
  lemma SplitPacketEmitted(d: Dev, id: Byte, h: nat, rs: seq<Reply>, rest: seq<Reply>)
    requires ValidDev(d) && d.script == [Deliver(2), Deliver(3), Deliver(h)] + (rs + rest)
    requires Holds(d.stream, d.pos) && 5 <= h <= d.stream[d.pos + 4]
    requires Splits(rs, Be16(d.stream[d.pos], d.stream[d.pos + 1]) - 3 - h)
    ensures Packet(d, id).outcome == Emitted(InStream(d.stream, d.pos, id))
  {
    var s1, s2, s3 := d.script[1..], d.script[2..], d.script[3..];
    assert s1[0] == Deliver(3) && s1[1..] == s2 && s2[0] == Deliver(h) && s2[1..] == s3 && s3 == rs + rest;
    var d1 := Dev(d.stream, d.pos + 2, s1);
    assert Read(d, 2).dev == d1 && Read(d1, 3).dev == Dev(d.stream, d.pos + 5, s2);
    var d3 := BehindHeader(d);
    assert d3 == Dev(d.stream, d.pos + 5 + h, s3) && s3[..|rs|] == rs;
    ReassemblyExactly(d, id);
  }

  // When the optional fields cannot be read, what is emitted is the fixed fields and zeros.
  lemma FailedHeader(d: Dev, id: Byte)
    requires ValidDev(d) && FixedReadsWhole(d) && d.pos + 5 <= |d.stream| && Usable(d.stream, d.pos)
    requires !Read(Read(Read(d, 2).dev, 3).dev, d.stream[d.pos + 4]).code.Success?
    ensures Packet(d, id).outcome == Emitted(ZeroEnded(d.stream, d.pos, id, d.pos + 5))
  {
    FixedFields(d, id);
  }

  lemma StoreBehindFixed(stream: seq<Byte>, p: nat, id: Byte, bytes: seq<Byte>)
    requires p + 5 <= |stream| && Be16(stream[p], stream[p + 1]) >= 3 + |bytes|
    requires p + 5 + |bytes| <= |stream| && bytes == stream[p + 5..p + 5 + |bytes|]
    ensures Store(FixedBuffer(stream, p, id), 9, bytes)
         == [0, 0, 1, id] + stream[p..p + 5 + |bytes|] + Zeros(Be16(stream[p], stream[p + 1]) - 3 - |bytes|)
  {
  }

  predicate Assembled(d: Dev, id: Byte, r: Result)
    requires Complete(d)
  {
    var end := d.pos + 2 + Be16(d.stream[d.pos], d.stream[d.pos + 1]);
    && d.pos + 10 <= r.dev.pos <= |d.stream| && r.dev.pos <= end
    && r.outcome ==
       if TimeStamp(d.stream[d.pos + 5..d.pos + 10]) == 0 then Emitted(ZeroEnded(d.stream, d.pos, id, r.dev.pos))
       else if r.dev.pos == end then Emitted(InStream(d.stream, d.pos, id))
       else Nothing
  }

  lemma CompleteAssembles(d: Dev, id: Byte, r: Result)
    requires Complete(d) && r == Packet(d, id)
    ensures Assembled(d, id, r)
  {
    Reassembly(d, id);
  }

  // The whole function: position `p` is behind the first start code of what is read, and what is emitted is
  // the packet there.
  lemma {:induction false} FirstPacket(d: Dev, h: Reg, s: Scanned, r: Result, i: nat)
    requires ValidDev(d) && h == EMPTY && s == Scan(d, h) && s.Found? && Complete(s.dev) && r == Combine(d)
    requires d.pos < i <= s.dev.pos
    ensures EndsInStart(d.stream, d.pos, i) <==> i == s.dev.pos
    ensures Assembled(s.dev, s.id, r)
  {
    LocksAtFirst(d, h, s, i);
    CompleteAssembles(s.dev, s.id, r);
  }

  // The whole function from the replies: single bytes up to the first start code, then a packet in any split.
  lemma StartThenPacket(d: Dev, i: nat, h: nat, rs: seq<Reply>, rest: seq<Reply>)
    requires ValidDev(d) && d.pos < i <= |d.stream| && |d.script| >= i - d.pos
    requires (forall j :: 0 <= j < i - d.pos ==> d.script[j] == Deliver(1)) && EndsInStart(d.stream, d.pos, i)
    requires forall j :: d.pos < j < i ==> !EndsInStart(d.stream, d.pos, j)
    requires d.script[i - d.pos..] == [Deliver(2), Deliver(3), Deliver(h)] + (rs + rest)
    requires Holds(d.stream, i) && 5 <= h <= d.stream[i + 4]
    requires Splits(rs, Be16(d.stream[i], d.stream[i + 1]) - 3 - h)
    ensures Combine(d).outcome == Emitted(InStream(d.stream, i, d.stream[i - 1]))
  {
    StartFound(d, i);
    SplitPacketEmitted(Dev(d.stream, i, d.script[i - d.pos..]), d.stream[i - 1], h, rs, rest);
  }

  lemma {:induction false} StartFound(d: Dev, i: nat)
    requires ValidDev(d) && d.pos < i <= |d.stream| && |d.script| >= i - d.pos
    requires (forall j :: 0 <= j < i - d.pos ==> d.script[j] == Deliver(1)) && EndsInStart(d.stream, d.pos, i)
    requires forall j :: d.pos < j < i ==> !EndsInStart(d.stream, d.pos, j)
    ensures Scan(d, EMPTY) == Found(Dev(d.stream, i, d.script[i - d.pos..]), d.stream[i - 1])
  {
    ManySingles(d.script, |d.stream| - d.pos, i - d.pos);
    ScanExactly(d, Singles(d.script, |d.stream| - d.pos), Scan(d, EMPTY));
    assert Scan(d, EMPTY).dev.pos == i;
  }

  lemma {:induction false} ManySingles(script: seq<Reply>, n: nat, k: nat)
    requires k <= n && k <= |script| && forall j :: 0 <= j < k ==> script[j] == Deliver(1)
    ensures Singles(script, n) >= k
  {
    if k == 0 {
    } else {
      forall j | 0 <= j < k - 1 ensures script[1..][j] == Deliver(1) {
        assert script[1..][j] == script[j + 1];
      }
      ManySingles(script[1..], n - 1, k - 1);
    }
  }

  // ---------- the demux ----------

  class Device {
    var stream: seq<Byte>
    var pos: nat
    var script: seq<Reply>

    ghost function D(): Dev
      reads this
    {
      Dev(stream, pos, script)
    }

    // `AM_DMX_Read`: the bytes that reach the caller's buffer.
    method AmDmxRead(size: nat) returns (code: Code, bytes: seq<Byte>)
      requires ValidDev(D())
      modifies this
      ensures Answer(D(), code, |bytes|) == Read(old(D()), size) && bytes == stream[old(pos)..pos]
    {
      if |script| == 0 {
        return Failure, [];
      }
      var reply := script[0];
      script := script[1..];
      if reply.Deliver? && reply.n <= size && pos + reply.n <= |stream| && (reply.n > 0 || size == 0) {
        pos := pos + reply.n;
        return Success, stream[pos - reply.n..pos];
      }
      return if reply.Other? then OtherError else Failure, [];
    }
  }

  // The do-while loop over the payload.
  method ReadPayload(dev: Device, buf: seq<Byte>, start: nat, packetLen: nat) returns (ok: bool, pesData: seq<Byte>)
    requires ValidDev(dev.D()) && start + packetLen == |buf|
    modifies dev
    ensures Reads(dev.D(), ok) == PayloadReads(old(dev.D()), packetLen)
    ensures ok ==> pesData == Store(buf, start, dev.stream[old(dev.pos)..dev.pos])
  {
    pesData := buf;
    var readLen := 0;
    ghost var d0, expected := dev.D(), PayloadReads(dev.D(), packetLen);
    StoreNothing(buf, start, d0.stream, d0.pos);
    while readLen < packetLen
      invariant 0 <= readLen <= packetLen && ValidDev(dev.D())
      invariant dev.stream == d0.stream && dev.pos == d0.pos + readLen
      invariant pesData == Store(buf, start, d0.stream[d0.pos..dev.pos])
      invariant PayloadReads(dev.D(), packetLen - readLen) == expected
      decreases |dev.script|
    {
      ghost var before := dev.pos;
      var code, data := dev.AmDmxRead(packetLen - readLen);
      if code.Success? {
        StoreTwice(buf, start, d0.stream, d0.pos, before, dev.pos);
        pesData := Store(pesData, start + readLen, data);
        readLen := readLen + |data|;
      } else if code.Failure? {
        return false, pesData;
      }
    }
    return true, pesData;
  }

  // From the optional header fields on.
  method ReadHeader(dev: Device, buf: seq<Byte>) returns (out: Outcome)
    requires ValidDev(dev.D()) && |buf| >= 9 && |buf| - 9 >= buf[8]
    modifies dev
    ensures Result(dev.D(), out) == HeaderAndPayload(old(dev.D()), buf)
  {
    var packetLen: int := |buf| - 9;
    var code, header := dev.AmDmxRead(buf[8]);
    if !code.Success? {
      return Emitted(buf);
    }
    if |buf| < 14 || (buf[7] >= 0xC0 && |buf| < 19) {
      return Undefined;
    }
    var pesData := Store(buf, 9, header);
    var pts := TimeStamp(pesData[9..14]);
    packetLen := packetLen - |header|;
    if pts != 0 && packetLen > 0 {
      var ok;
      ok, pesData := ReadPayload(dev, pesData, 9 + |header|, packetLen);
      if !ok {
        return Nothing;
      }
    } else {
      StoreNothing(pesData, 9 + |header|, dev.stream, dev.pos);
    }
    return Emitted(pesData);
  }

  // From the length field on.
  method ReadPacket(dev: Device, id: Byte) returns (out: Outcome)
    requires ValidDev(dev.D())
    modifies dev
    ensures Result(dev.D(), out) == Packet(old(dev.D()), id)
  {
    var _, tmpbuf1 := dev.AmDmxRead(2);
    var hi, lo: Byte := if |tmpbuf1| > 0 then tmpbuf1[0] else 0, if |tmpbuf1| > 1 then tmpbuf1[1] else 0;
    var packetLen := Be16(hi, lo);
    if packetLen < 3 {
      return Nothing;
    }
    var pesData := [0, 0, 1, id, hi, lo] + Zeros(packetLen);
    var _, fields := dev.AmDmxRead(3);
    pesData := Store(pesData, 6, fields);
    if packetLen - 3 < pesData[8] || pesData[7] < 0x80 {
      return Nothing;
    }
    out := ReadHeader(dev, pesData);
  }

  method CombinePesData(dev: Device) returns (out: Outcome)
    requires ValidDev(dev.D())
    modifies dev
    ensures Result(dev.D(), out) == Combine(old(dev.D()))
  {
    var packetHeader := EMPTY;
    ghost var d0, expected := dev.D(), Scan(dev.D(), packetHeader);
    while true
      invariant ValidDev(dev.D()) && Scan(dev.D(), packetHeader) == expected
      decreases |dev.script|
    {
      var code, tmpbuf := dev.AmDmxRead(1);
      if !code.Success? {
        return Nothing;
      }
      packetHeader := Push(packetHeader, tmpbuf[0]);
      if IsStart(packetHeader) {
        assert expected == Found(dev.D(), tmpbuf[0]);
        out := ReadPacket(dev, tmpbuf[0]);
        return;
      }
    }
  }
}
