/**
 Which EMM sections a section filter posts: a map from table ids to flags, and for one of the flags the
 addresses that the section carries.
 */
module EmmFilter {

  type Byte = bv8

  // The condition of the section settings; `mode` holds two bytes of EMM pid, sixteen table ids and sixteen
  // flags.
  datatype Condition = OtherCondition | SectionBits(filter: seq<Byte>, mask: seq<Byte>, mode: seq<Byte>)

  // `Undefined`: a byte is read beyond the end of one of the vectors.
  datatype Verdict = Post | Drop | Undefined

  // ---------- the rule ----------

  // Table id `id` stands at `t`, and at no later place.
  predicate LastEntry(mode: seq<Byte>, id: Byte, t: nat)
    requires |mode| >= 34
  {
    2 <= t < 18 && mode[t] == id && forall u :: t < u < 18 ==> mode[u] != id
  }

  predicate Mapped(mode: seq<Byte>, id: Byte)
    requires |mode| >= 34
  {
    exists t :: 2 <= t < 18 && mode[t] == id
  }

  predicate NoFlags(mode: seq<Byte>)
    requires |mode| >= 34
  {
    forall k :: 18 <= k < 34 ==> mode[k] == 0
  }

  // The fields of the section's fourth byte.
  function Label(b: Byte): nat {
    if b & 0xC0 == 0 then 0 else if b & 0xC0 == 0x40 then 1 else if b & 0xC0 == 0x80 then 2 else 3
  }

  function Addresses(b: Byte): nat {
    if b & 0x30 == 0 then 1 else if b & 0x30 == 0x10 then 2 else if b & 0x30 == 0x20 then 3 else 4
  }

  predicate ByBitmap(b: Byte) {
    b & 0x08 != 0
  }

  lemma FieldsAreShifts(b: Byte)
    ensures Label(b) == ((b & 0xC0) >> 6) as int && Addresses(b) == ((b & 0x30) >> 4) as int + 1
    ensures ByBitmap(b) <==> (b & 0x08) >> 3 == 1
  {
    assert (b & 0xC0) >> 6 == 0 || (b & 0xC0) >> 6 == 1 || (b & 0xC0) >> 6 == 2 || (b & 0xC0) >> 6 == 3;
    assert (b & 0x30) >> 4 == 0 || (b & 0x30) >> 4 == 1 || (b & 0x30) >> 4 == 2 || (b & 0x30) >> 4 == 3;
  }

  // Everything that comparing the section's `a`-th address reads is there.
  predicate Readable(c: Condition, data: seq<Byte>, a: nat)
    requires c.SectionBits? && |data| >= 4 && Label(data[3]) > 0
  {
    var def := (Label(data[3]) - 1) * 4;
    && |data| >= 8 + a * 4 && |c.filter| >= def + 4
    && (!ByBitmap(data[3]) ==> |c.mask| >= def + 4)
  }

  // Two bytes are the same under a mask; two bytes have a bit in common.
  predicate SameUnder(mask: Byte, x: Byte, y: Byte) {
    mask & x == mask & y
  }

  predicate Share(x: Byte, y: Byte) {
    x & y != 0
  }

  lemma BitsExactly(mask: Byte, x: Byte, y: Byte)
    ensures SameUnder(mask, x, y) <==> (x ^ y) & mask == 0
    ensures Share(x, y) <==> x | y != x ^ y
  {
  }

  // The address equals the filter's under the mask.
  predicate IdMatches(mask: seq<Byte>, filter: seq<Byte>, address: seq<Byte>)
    requires |mask| == |filter| == |address| == 4
  {
    forall k :: 0 <= k < 4 ==> SameUnder(mask[k], address[k], filter[k])
  }

  // The address has a bit of the filter.
  predicate BitmapMatches(filter: seq<Byte>, address: seq<Byte>)
    requires |filter| == |address| == 4
  {
    exists k :: 0 <= k < 4 && Share(filter[k], address[k])
  }

  predicate Matches(c: Condition, data: seq<Byte>, a: nat)
    requires c.SectionBits? && |data| >= 4 && Label(data[3]) > 0 && Readable(c, data, a)
  {
    var def, at := (Label(data[3]) - 1) * 4, 4 + a * 4;
    if ByBitmap(data[3]) then BitmapMatches(c.filter[def..def + 4], data[at..at + 4])
    else IdMatches(c.mask[def..def + 4], c.filter[def..def + 4], data[at..at + 4])
  }

  predicate Hit(c: Condition, data: seq<Byte>, a: nat)
    requires c.SectionBits? && |data| >= 4 && Label(data[3]) > 0
  {
    Readable(c, data, a) && Matches(c, data, a)
  }

  // No address before `a` is a hit.
  predicate NoHitBefore(c: Condition, data: seq<Byte>, a: nat)
    requires c.SectionBits? && |data| >= 4 && Label(data[3]) > 0
  {
    forall b :: 0 <= b < a ==> !Hit(c, data, b)
  }

  // The addresses are looked at in order up to the first hit, and can be read that far.
  predicate AddressesReadable(c: Condition, data: seq<Byte>)
    requires c.SectionBits? && |data| >= 4 && Label(data[3]) > 0
  {
    forall a :: 0 <= a < Addresses(data[3]) && NoHitBefore(c, data, a) ==> Readable(c, data, a)
  }

  predicate NdsDefined(c: Condition, data: seq<Byte>)
    requires c.SectionBits?
  {
    |data| >= 4 && (Label(data[3]) == 0 || AddressesReadable(c, data))
  }

  predicate NdsWanted(c: Condition, data: seq<Byte>)
    requires c.SectionBits? && |data| >= 4
  {
    Label(data[3]) == 0 || exists a :: 0 <= a < Addresses(data[3]) && Hit(c, data, a)
  }

  ghost predicate Defined(c: Condition, data: seq<Byte>) {
    c.SectionBits? ==>
      |c.mode| >= 34 && |data| >= 1 &&
      forall t :: LastEntry(c.mode, data[0], t) && c.mode[t + 16] == 2 ==> NdsDefined(c, data)
  }

  // The table-id map is unused, or the last matching entry enables the table outright, or it asks for the
  // addresses and one of them fits.
  ghost predicate Wanted(c: Condition, data: seq<Byte>)
    requires Defined(c, data)
  {
    && c.SectionBits?
    && (if !Mapped(c.mode, data[0]) then NoFlags(c.mode)
        else
          exists t :: LastEntry(c.mode, data[0], t) &&
            (c.mode[t + 16] == 1 || (c.mode[t + 16] == 2 && NdsWanted(c, data))))
  }

  // The rule by cases: the flag of the last matching entry decides, or the absence of all flags.
  lemma WantedExactly(c: Condition, data: seq<Byte>, t: nat)
    requires c.SectionBits? && Defined(c, data)
    ensures (forall u :: 2 <= u <= 17 ==> c.mode[u] != data[0]) ==>
              (Wanted(c, data) <==> forall k :: 18 <= k <= 33 ==> c.mode[k] == 0)
    ensures 2 <= t <= 17 && c.mode[t] == data[0] && (forall u :: t < u <= 17 ==> c.mode[u] != data[0]) ==>
              && (c.mode[t + 16] == 0 || c.mode[t + 16] > 2 ==> !Wanted(c, data))
              && (c.mode[t + 16] == 1 ==> Wanted(c, data))
              && (c.mode[t + 16] == 2 ==> |data| >= 4 && (Wanted(c, data) <==> SomeAddressFits(c, data)))
  {
    if 2 <= t <= 17 && c.mode[t] == data[0] && (forall u :: t < u <= 17 ==> c.mode[u] != data[0]) {
      assert LastEntry(c.mode, data[0], t);
      OneLastEntry(c.mode, data[0], t);
      if c.mode[t + 16] == 2 && Label(data[3]) > 0 {
        forall a | 0 <= a < Addresses(data[3]) ensures Hit(c, data, a) <==> Fits(c, data, a) {
          AddressFits(c, data, a);
        }
        ShiftKeeps(data[3]);
      }
    }
  }

  // Four bytes of the section from `at` on against four of the filter from `def` on: a bit in common for a bitmap, and
  // otherwise the same under the mask.
  predicate FitsAt(c: Condition, data: seq<Byte>, def: nat, at: nat, bitmap: bool)
    requires c.SectionBits?
  {
    && at + 4 <= |data| && def + 4 <= |c.filter|
    && if bitmap then
         || Share(c.filter[def], data[at]) || Share(c.filter[def + 1], data[at + 1])
         || Share(c.filter[def + 2], data[at + 2]) || Share(c.filter[def + 3], data[at + 3])
       else
         && def + 4 <= |c.mask|
         && SameUnder(c.mask[def], data[at], c.filter[def])
         && SameUnder(c.mask[def + 1], data[at + 1], c.filter[def + 1])
         && SameUnder(c.mask[def + 2], data[at + 2], c.filter[def + 2])
         && SameUnder(c.mask[def + 3], data[at + 3], c.filter[def + 3])
  }

  // Address `a` of the section, which begins behind its fourth byte and four times `a` more, against the filter of its
  // label.
  predicate Fits(c: Condition, data: seq<Byte>, a: nat)
    requires c.SectionBits? && |data| >= 4
  {
    var number := (data[3] >> 6) as int;
    number > 0 && FitsAt(c, data, 4 * number - 4, 4 + 4 * a, data[3] & 8 == 8)
  }

  lemma FourBytes(mask: seq<Byte>, filter: seq<Byte>, address: seq<Byte>)
    requires |mask| == |filter| == |address| == 4
    ensures IdMatches(mask, filter, address) <==>
              && SameUnder(mask[0], address[0], filter[0]) && SameUnder(mask[1], address[1], filter[1])
              && SameUnder(mask[2], address[2], filter[2]) && SameUnder(mask[3], address[3], filter[3])
    ensures BitmapMatches(filter, address) <==>
              || Share(filter[0], address[0]) || Share(filter[1], address[1])
              || Share(filter[2], address[2]) || Share(filter[3], address[3])
  {
  }

  // Without a label no address is looked at; with one, some of the one to four addresses must fit.
  predicate SomeAddressFits(c: Condition, data: seq<Byte>)
    requires c.SectionBits? && |data| >= 4
  {
    data[3] < 0x40 || exists a :: 0 <= a <= ((data[3] & 0x30) >> 4) as int && Fits(c, data, a)
  }

  lemma AddressFits(c: Condition, data: seq<Byte>, a: nat)
    requires c.SectionBits? && |data| >= 4 && Label(data[3]) > 0
    ensures Fits(c, data, a) <==> Hit(c, data, a)
  {
    ShiftKeeps(data[3]);
    HitExactly(c, data, a, (Label(data[3]) - 1) * 4, 4 + a * 4);
  }

  lemma HitExactly(c: Condition, data: seq<Byte>, a: nat, def: nat, at: nat)
    requires c.SectionBits? && |data| >= 4 && Label(data[3]) > 0 && def == (Label(data[3]) - 1) * 4 && at == 4 + a * 4
    ensures Hit(c, data, a) <==> FitsAt(c, data, def, at, ByBitmap(data[3]))
  {
    if !Readable(c, data, a) {
      assert !Hit(c, data, a) && !FitsAt(c, data, def, at, ByBitmap(data[3]));
    } else if ByBitmap(data[3]) {
      BitmapFits(c, data, def, at);
      assert Hit(c, data, a) <==> BitmapMatches(c.filter[def..def + 4], data[at..at + 4]);
      assert Hit(c, data, a) <==> FitsAt(c, data, def, at, true);
    } else {
      IdFits(c, data, def, at);
      assert Hit(c, data, a) <==> IdMatches(c.mask[def..def + 4], c.filter[def..def + 4], data[at..at + 4]);
      assert Hit(c, data, a) <==> FitsAt(c, data, def, at, false);
    }
  }

  lemma SliceAt(b: seq<Byte>, i: nat)
    requires i + 4 <= |b|
    ensures b[i..i + 4][0] == b[i] && b[i..i + 4][1] == b[i + 1]
    ensures b[i..i + 4][2] == b[i + 2] && b[i..i + 4][3] == b[i + 3]
  {
  }

  lemma BitmapFits(c: Condition, data: seq<Byte>, def: nat, at: nat)
    requires c.SectionBits? && at + 4 <= |data| && def + 4 <= |c.filter|
    ensures FitsAt(c, data, def, at, true) <==> BitmapMatches(c.filter[def..def + 4], data[at..at + 4])
  {
    SliceAt(c.filter, def);
    SliceAt(data, at);
    FourBytes(c.filter[def..def + 4], c.filter[def..def + 4], data[at..at + 4]);
  }

  lemma IdFits(c: Condition, data: seq<Byte>, def: nat, at: nat)
    requires c.SectionBits? && at + 4 <= |data| && def + 4 <= |c.filter| && def + 4 <= |c.mask|
    ensures FitsAt(c, data, def, at, false) <==>
            IdMatches(c.mask[def..def + 4], c.filter[def..def + 4], data[at..at + 4])
  {
    SliceAt(c.mask, def);
    SliceAt(c.filter, def);
    SliceAt(data, at);
    FourBytes(c.mask[def..def + 4], c.filter[def..def + 4], data[at..at + 4]);
  }

  lemma ShiftKeeps(b: Byte)
    ensures Label(b) == (b >> 6) as int && Addresses(b) == ((b & 0x30) >> 4) as int + 1
    ensures (b & 8 == 8 <==> ByBitmap(b)) && (b < 0x40 <==> Label(b) == 0)
  {
    FieldsAreShifts(b);
    assert (b & 0xC0) >> 6 == b >> 6 && (b & 8 == 8 <==> b & 8 != 0) && (b < 0x40 <==> b >> 6 == 0);
  }

  lemma OneLastEntry(mode: seq<Byte>, id: Byte, t: nat)
    requires |mode| >= 34 && LastEntry(mode, id, t)
    ensures Mapped(mode, id) && forall u :: LastEntry(mode, id, u) <==> u == t
  {
  }

  // ---------- the loops ----------

  // The loop that masks an address.
  method MaskAddress(x: seq<Byte>, y: seq<Byte>) returns (r: seq<Byte>)
    requires |x| == |y| == 4
    ensures |r| == 4 && forall k :: 0 <= k < 4 ==> r[k] == x[k] & y[k]
  {
    r := [];
    var idx := 0;
    while idx < 4
      invariant 0 <= idx <= 4 && |r| == idx && forall k :: 0 <= k < idx ==> r[k] == x[k] & y[k]
    {
      r := r + [x[idx] & y[idx]];
      idx := idx + 1;
    }
  }

  method MatchById(mask: seq<Byte>, filter: seq<Byte>, address: seq<Byte>) returns (hit: bool)
    requires |mask| == |filter| == |address| == 4
    ensures hit == IdMatches(mask, filter, address)
  {
    var addressCa := MaskAddress(mask, address);
    var addressRequested := MaskAddress(mask, filter);
    hit := addressCa == addressRequested;
    assert hit <==> forall k :: 0 <= k < 4 ==> addressCa[k] == addressRequested[k];
  }

  method MatchByBitmap(filter: seq<Byte>, address: seq<Byte>) returns (hit: bool)
    requires |filter| == |address| == 4
    ensures hit == BitmapMatches(filter, address)
  {
    var addressCa := MaskAddress(filter, address);
    hit := addressCa[0] != 0 || addressCa[1] != 0 || addressCa[2] != 0 || addressCa[3] != 0;
    assert hit <==> exists k :: 0 <= k < 4 && addressCa[k] != 0;
  }

  // One address against the filter definition of the label.
  method MatchAddress(c: Condition, data: seq<Byte>, a: nat) returns (hit: bool)
    requires c.SectionBits? && |data| >= 4 && Label(data[3]) > 0 && Readable(c, data, a)
    ensures hit == Matches(c, data, a)
  {
    var def, at := (Label(data[3]) - 1) * 4, 4 + a * 4;
    if !ByBitmap(data[3]) {
      hit := MatchById(c.mask[def..def + 4], c.filter[def..def + 4], data[at..at + 4]);
    } else {
      hit := MatchByBitmap(c.filter[def..def + 4], data[at..at + 4]);
    }
  }

  // The loop over the section's addresses.
  method MatchAddresses(c: Condition, data: seq<Byte>) returns (v: Verdict)
    requires c.SectionBits? && |data| >= 4 && Label(data[3]) > 0
    ensures v.Undefined? <==> !AddressesReadable(c, data)
    ensures !v.Undefined? ==> (v.Post? <==> exists a :: 0 <= a < Addresses(data[3]) && Hit(c, data, a))
  {
    var addrIdx := 0;
    var numOfPacket := Addresses(data[3]);
    while addrIdx < numOfPacket
      invariant 0 <= addrIdx <= numOfPacket && NoHitBefore(c, data, addrIdx)
      invariant forall a :: 0 <= a < addrIdx ==> Readable(c, data, a)
    {
      if !Readable(c, data, addrIdx) {
        return Undefined;
      }
      var hit := MatchAddress(c, data, addrIdx);
      if hit {
        assert Hit(c, data, addrIdx);
        assert forall a :: addrIdx < a ==> !NoHitBefore(c, data, a);
        return Post;
      }
      addrIdx := addrIdx + 1;
    }
    return Drop;
  }

  // The loop that counts the flags.
  method CountFlags(mode: seq<Byte>) returns (count: nat)
    requires |mode| >= 34
    ensures count == 0 <==> NoFlags(mode)
  {
    count := 0;
    var flagIndex := 18;
    while flagIndex < 34
      invariant 18 <= flagIndex <= 34 && (count == 0 <==> forall k :: 18 <= k < flagIndex ==> mode[k] == 0)
    {
      if mode[flagIndex] != 0 {
        count := count + 1;
      }
      flagIndex := flagIndex + 1;
    }
  }

  // The loop that keeps the last matching table id; 0xFF when there is none.
  method FindTableId(mode: seq<Byte>, id: Byte) returns (index: nat)
    requires |mode| >= 34
    ensures if index == 0xFF then !Mapped(mode, id) else LastEntry(mode, id, index)
  {
    index := 0xFF;
    var tidIndex := 2;
    while tidIndex < 18
      invariant 2 <= tidIndex <= 18
      invariant if index == 0xFF then forall u :: 2 <= u < tidIndex ==> mode[u] != id
                else 2 <= index < tidIndex && mode[index] == id && forall u :: index < u < tidIndex ==> mode[u] != id
    {
      if mode[tidIndex] == id {
        index := tidIndex;
      }
      tidIndex := tidIndex + 1;
    }
  }

  // A section is posted exactly when the rule wants it.
  method PostFilteredEmmSection(c: Condition, data: seq<Byte>) returns (v: Verdict)
    ensures v.Undefined? <==> !Defined(c, data)
    ensures !v.Undefined? ==> (v.Post? <==> Wanted(c, data))
  {
    if c.OtherCondition? {
      return Drop;
    }
    if |c.mode| < 34 || |data| < 1 {
      return Undefined;
    }
    var tIdFlagCount := CountFlags(c.mode);
    var tIdMatchedIndex := FindTableId(c.mode, data[0]);
    if tIdMatchedIndex == 0xFF {
      return if tIdFlagCount == 0 then Post else Drop;
    }
    OneLastEntry(c.mode, data[0], tIdMatchedIndex);
    var tableIdFlag := c.mode[tIdMatchedIndex + 16];
    if tableIdFlag == 0 {
      return Drop;
    }
    if tableIdFlag == 1 {
      return Post;
    }
    if tableIdFlag == 2 {
      if |data| < 4 {
        return Undefined;
      }
      if Label(data[3]) == 0 {
        return Post;
      }
      v := MatchAddresses(c, data);
      return;
    }
    return Drop;
  }
}
