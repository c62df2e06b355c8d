/**
 The public id of a filter: the filter id, the AV stream type, the demux id and the pid, packed into
 disjoint bit fields as the calls that know them come in. The 64-bit field of the code never holds more
 than these 32 bits.
 */
module FilterIds {

  // 6 bits filter id, 5 bits stream type, 1 bit unused, 4 bits demux id, 16 bits pid.
  function Packed(fid: bv32, dmx: bv32): bv32 {
    ((fid & 0x3F) << 26) | ((dmx & 0xF) << 16)
  }

  datatype Call =
    | Configure(tpid: bv32)        // of an AV filter in passthrough mode
    | ConfigureAvStreamType(streamType: bv32)

  function Or(ext: bv32, c: Call): bv32 {
    match c
    case Configure(tpid) => ext | (tpid & 0xFFFF)
    case ConfigureAvStreamType(t) => ext | ((t & 0x1F) << 21)
  }

  function OrAll(ext: bv32, calls: seq<Call>): bv32
    decreases |calls|
  {
    if calls == [] then ext else OrAll(Or(ext, calls[0]), calls[1..])
  }

  // `findFilterIdByfakeFilterId`: a value no greater than DMX_FILTER_COUNT is taken as it is.
  function Decode(ext: bv32): bv32 {
    if ext > 32 then (ext >> 26) & 0x3F else ext
  }

  // The four fields.
  datatype Fields = Fields(fid: bv32, streamType: bv32, dmx: bv32, pid: bv32)

  function Unpack(ext: bv32): Fields {
    Fields(ext >> 26, (ext >> 21) & 0x1F, (ext >> 16) & 0xF, ext & 0xFFFF)
  }

  // Later calls add their bits to the field and to no other.
  function AddBits(f: Fields, c: Call): Fields {
    match c
    case Configure(tpid) => f.(pid := f.pid | (tpid & 0xFFFF))
    case ConfigureAvStreamType(t) => f.(streamType := f.streamType | (t & 0x1F))
  }

  function AddAllBits(f: Fields, calls: seq<Call>): Fields
    decreases |calls|
  {
    if calls == [] then f else AddAllBits(AddBits(f, calls[0]), calls[1..])
  }

  lemma PackedFields(fid: bv32, dmx: bv32)
    requires fid < 64 && dmx < 16
    ensures Unpack(Packed(fid, dmx)) == Fields(fid, 0, dmx, 0)
  {
  }

  lemma OrPidFields(ext: bv32, tpid: bv32)
    ensures var more := ext | (tpid & 0xFFFF);
            && more >> 26 == ext >> 26 && (more >> 21) & 0x1F == (ext >> 21) & 0x1F
            && (more >> 16) & 0xF == (ext >> 16) & 0xF && more & 0xFFFF == (ext & 0xFFFF) | (tpid & 0xFFFF)
  {
  }

  lemma OrTypeFields(ext: bv32, t: bv32)
    ensures var more := ext | ((t & 0x1F) << 21);
            && more >> 26 == ext >> 26 && (more >> 21) & 0x1F == ((ext >> 21) & 0x1F) | (t & 0x1F)
            && (more >> 16) & 0xF == (ext >> 16) & 0xF && more & 0xFFFF == ext & 0xFFFF
  {
  }

  lemma OrFields(ext: bv32, c: Call)
    ensures Unpack(Or(ext, c)) == AddBits(Unpack(ext), c)
  {
    match c
    case Configure(tpid) =>
      OrPidFields(ext, tpid);
      assert Unpack(Or(ext, c)).fid == AddBits(Unpack(ext), c).fid;
    case ConfigureAvStreamType(t) =>
      OrTypeFields(ext, t);
      assert Unpack(Or(ext, c)).fid == AddBits(Unpack(ext), c).fid;
  }

  // After any calls the id holds the filter id, the demux id, and in the other two fields all the bits of
  // the stream types and of the pids that were configured.
  lemma {:induction false} FieldsOfAll(ext: bv32, calls: seq<Call>)
    ensures Unpack(OrAll(ext, calls)) == AddAllBits(Unpack(ext), calls)
    decreases |calls|
  {
    if calls == [] {
    } else {
      OrFields(ext, calls[0]);
      FieldsOfAll(Or(ext, calls[0]), calls[1..]);
    }
  }

  lemma {:induction false} CallsKeepIds(f: Fields, calls: seq<Call>)
    ensures AddAllBits(f, calls).fid == f.fid && AddAllBits(f, calls).dmx == f.dmx
    decreases |calls|
  {
    if calls == [] {
    } else {
      CallsKeepIds(AddBits(f, calls[0]), calls[1..]);
    }
  }

  lemma DecodeByField(ext: bv32, fid: bv32)
    requires fid < 64 && ext >> 26 == fid
    ensures Decode(ext) == fid <==> fid != 0 || ext == 0 || ext > 32
  {
  }

  // Decoding a public id gives the filter id back after any calls, except that filter 0 is mistaken for
  // another one when its id is a number from 1 to 32, which takes demux 0, no stream type and a small pid.
  lemma {:induction false} DecodesToFilter(fid: bv32, dmx: bv32, calls: seq<Call>)
    requires fid < 64 && dmx < 16
    ensures var ext := OrAll(Packed(fid, dmx), calls);
            Decode(ext) == fid <==> fid != 0 || ext == 0 || ext > 32
  {
    PackedFields(fid, dmx);
    FieldsOfAll(Packed(fid, dmx), calls);
    CallsKeepIds(Unpack(Packed(fid, dmx)), calls);
    DecodeByField(OrAll(Packed(fid, dmx), calls), fid);
  }

  // Which ids of filter 0 those are.
  lemma SmallIds(ext: bv32)
    ensures 0 < ext <= 32 <==>
            (var f := Unpack(ext); f == Fields(0, 0, 0, f.pid) && 0 < f.pid <= 32) && (ext >> 20) & 1 == 0
  {
  }

  // After one call of each kind, in either order, every field can be read back.
  lemma PidThenTypeRecoverable(fid: bv32, dmx: bv32, tpid: bv32, t: bv32)
    requires fid < 64 && dmx < 16 && tpid < 0x1_0000 && t < 32
    ensures Unpack(Or(Or(Packed(fid, dmx), Configure(tpid)), ConfigureAvStreamType(t))) == Fields(fid, t, dmx, tpid)
  {
  }

  lemma TypeThenPidRecoverable(fid: bv32, dmx: bv32, tpid: bv32, t: bv32)
    requires fid < 64 && dmx < 16 && tpid < 0x1_0000 && t < 32
    ensures Unpack(Or(Or(Packed(fid, dmx), ConfigureAvStreamType(t)), Configure(tpid))) == Fields(fid, t, dmx, tpid)
  {
  }

  class Filter {
    var extendId: bv32

    constructor (filterId: bv32, dmxId: bv32)
      ensures extendId == Packed(filterId, dmxId)
    {
      extendId := ((filterId & 0x3F) << 26) | ((dmxId & 0xF) << 16);
    }

    method Configure(tpid: bv32, isPassthrough: bool)
      modifies this
      ensures extendId == if isPassthrough then Or(old(extendId), Call.Configure(tpid)) else old(extendId)
    {
      if isPassthrough {
        extendId := extendId | (tpid & 0xFFFF);
      }
    }

    method ConfigureAvStreamType(streamType: bv32, isMediaFilter: bool, isPassthrough: bool) returns (ok: bool)
      modifies this
      ensures ok == isMediaFilter
      ensures extendId == if isMediaFilter && isPassthrough
                          then Or(old(extendId), Call.ConfigureAvStreamType(streamType))
                          else old(extendId)
    {
      if !isMediaFilter {
        return false;
      }
      if isPassthrough {
        extendId := extendId | ((streamType & 0x1F) << 21);
      }
      return true;
    }
  }
}
