/**
 The table from packed (type, pid) keys to hardware descrambling channels that the descramblers of
 every HAL version share, with the loops that fill it from the key slots and empty it.
 */
module ChannelTable {
  import opened IdSets
  import opened Options

  // ---------- key slots ----------

  datatype Parity = ParityNone | ParityEven | ParityOdd | ParityOther
  datatype KeyType = Key00 | Key00Iv | KeyEven | KeyEvenIv | KeyOdd | KeyOddIv

  type Uint32 = x: int | 0 <= x < 0x1_0000_0000

  datatype KeySlot = KeySlot(id: Uint32, algo: int, parity: Parity, isIv: bool, isEnc: bool)

  // One successful `ca_set_key`.
  datatype KeySetting = KeySetting(keyType: KeyType, kte: Uint32)

  // `ca_sc2_dsc_type`.
  const COMMON := 0
  const TSD := 1
  const TSE := 2

  // Pids are 13 bits wide.
  predicate IsPid(pid: nat) {
    pid < 0x2000
  }

  predicate IsType(t: nat) {
    t == COMMON || t == TSD || t == TSE
  }

  // `ADD_DSC_TYPE_FLAG_WITH_PID`: the type in the two top bits of a 16-bit key.
  function Pack(t: nat, pid: nat): nat {
    t * 0x4000 + pid
  }

  // Shifting by 14 and or-ing is multiplying and adding, because a pid leaves those bits clear.
  lemma PackIsShiftOr(t: bv16, pid: bv16)
    requires t < 4 && pid < 0x2000
    ensures (t << 14) | pid == t * 0x4000 + pid && (t << 14) <= 0xC000
  {
  }

  lemma PackInjective(t: nat, pid: nat, t': nat, pid': nat)
    requires IsType(t) && IsType(t') && IsPid(pid) && IsPid(pid')
    requires Pack(t, pid) == Pack(t', pid')
    ensures t == t' && pid == pid' && Pack(t, pid) < 0x1_0000
  {
  }

  // `EXTRACT_CM_NSK_ALGO_TYPE`, `EXTRACT_CM_SLOT_ID` and `ADD_IV_FLAG_PREFIX`.
  function AlgoType(id: Uint32): nat {
    id / 0x4000_0000
  }

  function SlotKte(slot: KeySlot): Uint32 {
    slot.id % 0x4000_0000 + if slot.isIv then 0x8000_0000 else 0
  }

  // LDE, ESA and LEN slots go to TSD, common and TSE channels.
  function DscType(algoType: nat): Option<nat> {
    if algoType == 0 then Some(TSD) else if algoType == 1 then Some(COMMON)
    else if algoType == 2 then Some(TSE) else None
  }

  function KeyTypeOf(slot: KeySlot): Option<KeyType> {
    match slot.parity
    case ParityNone => Some(if slot.isIv then Key00Iv else Key00)
    case ParityEven => Some(if slot.isIv then KeyEvenIv else KeyEven)
    case ParityOdd => Some(if slot.isIv then KeyOddIv else KeyOdd)
    case ParityOther => None
  }

  // A slot id has its algorithm type in the two upper bits and the slot in the others; the IV flag is bit 31.
  lemma SlotFields(slot: KeySlot, algoType: nat, number: nat)
    requires algoType < 4 && number < 0x4000_0000 && slot.id == algoType * 0x4000_0000 + number
    ensures AlgoType(slot.id) == algoType
    ensures SlotKte(slot) == if slot.isIv then 0x8000_0000 + number else number
  {
  }

  // Those are the parts that the shifts and masks of the code cut out.
  lemma MasksAreParts(id: bv32)
    ensures id >> 30 == id / 0x4000_0000 && !(3 << 30) & id == id % 0x4000_0000
    ensures (1 << 31) | (!(3 << 30) & id) == id % 0x4000_0000 + 0x8000_0000
    ensures id % 0x4000_0000 < 0x4000_0000
  {
  }

  // The enumerators of the driver's header, in its order.
  function KeyNumber(k: KeyType): nat {
    match k
    case KeyEven => 0
    case KeyEvenIv => 1
    case KeyOdd => 2
    case KeyOddIv => 3
    case Key00 => 4
    case Key00Iv => 5
  }

  // In numbers, a key type is its parity, even, odd or none, and the IV flag; another parity has none.
  lemma KeyTypeExactly(slot: KeySlot)
    ensures KeyTypeOf(slot).None? <==> slot.parity == ParityOther
    ensures KeyTypeOf(slot).Some? ==>
              && KeyNumber(KeyTypeOf(slot).value) % 2 == (if slot.isIv then 1 else 0)
              && KeyNumber(KeyTypeOf(slot).value) / 2 ==
                 (if slot.parity == ParityEven then 0 else if slot.parity == ParityOdd then 1 else 2)
  {
  }

  // LDE is 0, ESA 1 and LEN 2; a common channel is 0, TSD 1 and TSE 2.
  lemma DscTypeExactly(algoType: nat)
    ensures DscType(0) == Some(1) && DscType(1) == Some(0) && DscType(2) == Some(2)
    ensures algoType > 2 ==> DscType(algoType) == None
    ensures IsType(algoType) <==> algoType <= 2
  {
  }

  // ---------- the CA driver ----------

  datatype Channel = Channel(pid: nat, algo: int, dscType: nat, keys: seq<KeySetting>)

  // The channels that are live in hardware, and how many calls have been answered.
  datatype Ca = Ca(live: map<int, Channel>, tick: nat)

  // What the driver answers to its successive calls.
  type Driver = nat -> int

  // `ca_alloc_chan`: a negative value or a handle that is not live.
  function AllocChan(ca: Ca, c: Channel, driver: Driver): (r: (Ca, int))
    ensures r.1 >= 0 ==> r.1 !in ca.live && r.0.live == ca.live[r.1 := c]
    ensures r.1 < 0 ==> r.0.live == ca.live
  {
    var h := driver(ca.tick);
    if h < 0 || h in ca.live then (ca.(tick := ca.tick + 1), -1)
    else (Ca(ca.live[h := c], ca.tick + 1), h)
  }

  // `ca_set_key`: zero is success.
  function SetKey(ca: Ca, h: int, k: KeySetting, driver: Driver): (Ca, bool)
    requires h in ca.live
  {
    if driver(ca.tick) == 0
    then (Ca(ca.live[h := ca.live[h].(keys := ca.live[h].keys + [k])], ca.tick + 1), true)
    else (ca.(tick := ca.tick + 1), false)
  }

  // ---------- the table and what the operations do to it ----------

  // `orphans` are the channels that were allocated but, because binding their keys failed, never
  // entered in the table.
  datatype Table = Table(added: set<nat>, chans: map<nat, int>, ca: Ca, orphans: set<int>)

  function NskKeys(pids: set<nat>): set<nat> {
    (set p | p in pids :: Pack(COMMON, p)) + (set p | p in pids :: Pack(TSD, p)) + (set p | p in pids :: Pack(TSE, p))
  }

  function KeysOf(pids: set<nat>, nsk: bool): set<nat> {
    if nsk then NskKeys(pids) else pids
  }

  // The keys of one pid.
  function OwnKeys(pid: nat, nsk: bool): set<nat> {
    if nsk then {pid, 0x4000 + pid, 0x8000 + pid} else {pid}
  }

  lemma KeysExactly(pids: set<nat>, pid: nat, nsk: bool)
    ensures KeysOf({pid}, nsk) == OwnKeys(pid, nsk)
    ensures forall k :: k in KeysOf(pids, nsk) <==> exists p :: p in pids && k in OwnKeys(p, nsk)
  {
    if nsk {
      forall p | p in pids ensures Pack(COMMON, p) == p && Pack(TSD, p) == 0x4000 + p && Pack(TSE, p) == 0x8000 + p {
      }
      forall k | exists p :: p in pids && k in OwnKeys(p, nsk) ensures k in KeysOf(pids, nsk) {
        var p :| p in pids && k in OwnKeys(p, nsk);
        assert Pack(COMMON, p) in NskKeys(pids) && Pack(TSD, p) in NskKeys(pids) && Pack(TSE, p) in NskKeys(pids);
      }
    }
  }

  function Handles(chans: map<nat, int>, keys: set<nat>): set<int> {
    set k | k in keys && k in chans :: chans[k]
  }

  // Freeing the channels under `keys` and erasing the keys.
  function Drop(t: Table, keys: set<nat>): Table {
    t.(chans := t.chans - keys, ca := t.ca.(live := t.ca.live - Handles(t.chans, keys)))
  }

  function Clear(t: Table, nsk: bool): Table {
    Drop(t, KeysOf(t.added, nsk))
  }

  // One key slot of the NSK loop: allocate its type's channel on first use, then set the key on it.
  // `got` is the handle already allocated for each type.
  function NskSlot(t: Table, pid: nat, slot: KeySlot, got: map<nat, int>, driver: Driver)
    : (r: (Table, map<nat, int>, bool))
    requires got.Values <= t.ca.live.Keys
    ensures r.1.Values <= r.0.ca.live.Keys
  {
    match KeyTypeOf(slot)
    case None => (t, got, false)
    case Some(keyType) =>
      match DscType(AlgoType(slot.id))
      case None => (t, got, false)
      case Some(ty) =>
        if ty in got then
          var (ca, ok) := SetKey(t.ca, got[ty], KeySetting(keyType, SlotKte(slot)), driver);
          (t.(ca := ca), got, ok)
        else
          var (ca, h) := AllocChan(t.ca, Channel(pid, slot.algo, ty, []), driver);
          if h < 0 then (t.(ca := ca), got, false)
          else
            var (ca', ok) := SetKey(ca, h, KeySetting(keyType, SlotKte(slot)), driver);
            (t.(ca := ca', chans := t.chans[Pack(ty, pid) := h]), got[ty := h], ok)
  }

  // The key-slot loop for one pid.
  function NskSlots(t: Table, pid: nat, slots: seq<KeySlot>, i: nat, got: map<nat, int>, driver: Driver): (Table, bool)
    requires i <= |slots| && got.Values <= t.ca.live.Keys
    decreases |slots| - i
  {
    if i == |slots| then (t, true)
    else
      var (t', got', ok) := NskSlot(t, pid, slots[i], got, driver);
      if ok then NskSlots(t', pid, slots, i + 1, got', driver) else (t', false)
  }

  // `bindDscChannelToKeyTable`.
  function Bind(ca: Ca, h: int, slots: seq<KeySlot>, i: nat, driver: Driver): (r: (Ca, bool))
    requires i <= |slots| && h in ca.live
    ensures r.0.live.Keys == ca.live.Keys
    decreases |slots| - i
  {
    if i == |slots| then (ca, true)
    else
      match KeyTypeOf(slots[i])
      case None => (ca, false)
      case Some(keyType) =>
        var (ca', ok) := SetKey(ca, h, KeySetting(keyType, slots[i].id), driver);
        if ok then Bind(ca', h, slots, i + 1, driver) else (ca', false)
  }

  // Allocating and binding one common-mode channel.
  function CommonChannel(t: Table, pid: nat, slots: seq<KeySlot>, algo: int, dscType: nat, driver: Driver)
    : (Table, bool)
  {
    var (ca, h) := AllocChan(t.ca, Channel(pid, algo, dscType, []), driver);
    if h < 0 then (t.(ca := ca), false)
    else
      var (ca', ok) := Bind(ca, h, slots, 0, driver);
      if ok then (t.(ca := ca', chans := t.chans[pid := h]), true)
      else (t.(ca := ca', orphans := t.orphans + {h}), false)
  }

  // How a descrambler programs channels: NSK or common mode, the key slots, and for common mode the
  // algorithm and channel type.
  datatype Mode = Mode(nsk: bool, slots: seq<KeySlot>, algo: int, dscType: nat)

  function OneChannel(t: Table, pid: nat, m: Mode, driver: Driver): (Table, bool) {
    if m.nsk then NskSlots(t, pid, m.slots, 0, map[], driver)
    else CommonChannel(t, pid, m.slots, m.algo, m.dscType, driver)
  }

  // `allocDscChannels` and `allocNskDscChannels`: the pids in ascending order, until one fails.
  function AllocAll(t: Table, rest: set<nat>, m: Mode, driver: Driver): (Table, bool)
    decreases rest
  {
    if rest == {} then (t, true)
    else
      var pid := Least(rest);
      var (t', ok) := OneChannel(t, pid, m, driver);
      if ok then AllocAll(t', rest - {pid}, m, driver) else (t', false)
  }

  // The channel part of `addPid`: nothing if the pid already has a channel.
  function AddChannel(t: Table, pid: nat, m: Mode, driver: Driver): (Table, bool) {
    if KeysOf({pid}, m.nsk) !! t.chans.Keys then OneChannel(t, pid, m, driver) else (t, true)
  }

  // ---------- becoming ready ----------

  // What the session answers once it reports its key slots ready.
  datatype TypeReply = TypeFailed | TypeIs(ty: nat) | TypeOther
  datatype SlotReply = SlotReply(isEnc: bool, nsk: Option<bool>, slots: Option<seq<KeySlot>>, ty: TypeReply)

  // `CA_ALGO_UNKNOWN`, the last of the algorithms. A slot may carry it; its session is then not ready.
  const ALGO_UNKNOWN := 15

  // The algorithm of the first slot on the wanted side, if there is one.
  function PickAlgo(slots: seq<KeySlot>, isEnc: bool, algo: int): int {
    if slots == [] then algo else if slots[0].isEnc == isEnc then slots[0].algo else PickAlgo(slots[1..], isEnc, algo)
  }

  // The mode after the session's answers, and whether they are complete. `failed` is what a failed
  // slot query leaves in the slot list.
  function ReadMode(m: Mode, r: SlotReply, failed: seq<KeySlot>): (Mode, bool) {
    var m1 := m.(nsk := if r.nsk.Some? then r.nsk.value else m.nsk);
    if r.slots.None? then (m1.(slots := failed), false)
    else
      var m2 := m1.(slots := r.slots.value, algo := PickAlgo(r.slots.value, r.isEnc, m.algo));
      if m2.algo == ALGO_UNKNOWN then (m2, false)
      else
        (m2.(dscType := match r.ty case TypeFailed => COMMON case TypeIs(ty) => ty case TypeOther => m.dscType), true)
  }

  // The algorithm is that of the first slot on the wanted side; without one it stays.
  lemma {:induction false} PickAlgoFirst(slots: seq<KeySlot>, isEnc: bool, algo: int, j: nat)
    requires forall i :: 0 <= i < j && i < |slots| ==> slots[i].isEnc != isEnc
    ensures j >= |slots| ==> PickAlgo(slots, isEnc, algo) == algo
    ensures j < |slots| && slots[j].isEnc == isEnc ==> PickAlgo(slots, isEnc, algo) == slots[j].algo
    decreases |slots|
  {
    if slots == [] || j == 0 {
    } else {
      forall i | 0 <= i < j - 1 && i < |slots[1..]| ensures slots[1..][i].isEnc != isEnc {
        assert slots[1..][i] == slots[i + 1];
      }
      PickAlgoFirst(slots[1..], isEnc, algo, j - 1);
    }
  }

  // The mode after the session's answers.
  lemma ReadModeExactly(m: Mode, r: SlotReply, failed: seq<KeySlot>)
    ensures var (m', ok) := ReadMode(m, r, failed);
            && (r.nsk == Some(true) ==> m'.nsk) && (r.nsk == Some(false) ==> !m'.nsk)
            && (r.nsk == None ==> m'.nsk == m.nsk)
            && m'.slots == (if r.slots.Some? then r.slots.value else failed)
            && m'.algo == (if r.slots.Some? then PickAlgo(r.slots.value, r.isEnc, m.algo) else m.algo)
            && (ok <==> r.slots.Some? && m'.algo != 15)
            && (ok && r.ty.TypeFailed? ==> m'.dscType == 0) && (ok && r.ty.TypeIs? ==> m'.dscType == r.ty.ty)
            && (!ok || r.ty.TypeOther? ==> m'.dscType == m.dscType)
  {
  }

  // Filling the table for every added pid, or emptying it again.
  function Fill(t: Table, m: Mode, driver: Driver): (Table, bool) {
    var (t', ok) := AllocAll(t, t.added, m, driver);
    if ok then (t', true) else (Clear(t', m.nsk), false)
  }

  // ---------- conservation ----------

  // The live channels are exactly the values of the table and the orphans; no channel is entered twice.
  predicate Sound(t: Table) {
    && (forall k, l :: k in t.chans && l in t.chans && k != l ==> t.chans[k] != t.chans[l])
    && t.ca.live.Keys == t.chans.Values + t.orphans
    && t.orphans !! t.chans.Values
  }

  predicate PidsOk(t: Table) {
    forall p :: p in t.added ==> IsPid(p)
  }

  // Entries of `t` are kept, and what is new belongs to `pid`.
  ghost predicate Extends(t: Table, t': Table, pid: nat, nsk: bool) {
    && t'.added == t.added
    && t.chans.Keys <= t'.chans.Keys <= t.chans.Keys + KeysOf({pid}, nsk)
    && (forall k :: k in t.chans ==> t'.chans[k] == t.chans[k])
    && t.orphans <= t'.orphans && (nsk ==> t.orphans == t'.orphans)
  }

  // The channels in `handles` are live and programmed as before.
  ghost predicate Untouched(t: Table, t': Table, handles: set<int>) {
    forall h :: h in handles ==> h in t.ca.live && h in t'.ca.live && t'.ca.live[h] == t.ca.live[h]
  }

  lemma DropSound(t: Table, keys: set<nat>)
    requires Sound(t)
    ensures Sound(Drop(t, keys))
    ensures Untouched(t, Drop(t, keys), Handles(t.chans, t.chans.Keys - keys))
  {
    var t' := Drop(t, keys);
    assert t'.chans.Values == t.chans.Values - Handles(t.chans, keys) by {
      forall h | h in t.chans.Values - Handles(t.chans, keys) ensures h in t'.chans.Values {
        var k :| k in t.chans && t.chans[k] == h;
        assert k in t'.chans && t'.chans[k] == h;
      }
      forall h | h in t'.chans.Values ensures h in t.chans.Values - Handles(t.chans, keys) {
        var k :| k in t'.chans && t'.chans[k] == h;
        assert k in t.chans && t.chans[k] == h;
      }
    }
  }

  lemma ClearEmpties(t: Table, nsk: bool)
    requires Sound(t) && t.chans.Keys <= KeysOf(t.added, nsk)
    ensures Clear(t, nsk).chans == map[] && Sound(Clear(t, nsk)) && Clear(t, nsk).ca.live.Keys == t.orphans
  {
  }

  // Entering a fresh channel under a free key.
  lemma EnterSound(t: Table, key: nat, h: int, ca: Ca)
    requires Sound(t) && key !in t.chans && h !in t.ca.live && ca.live.Keys == t.ca.live.Keys + {h}
    ensures Sound(t.(ca := ca, chans := t.chans[key := h]))
  {
    var chans := t.chans[key := h];
    assert chans.Values == t.chans.Values + {h} by {
      forall v | v in t.chans.Values + {h} ensures v in chans.Values {
        if v == h {
          assert chans[key] == h;
        } else {
          var k :| k in t.chans && t.chans[k] == v;
          assert chans[k] == v;
        }
      }
    }
    assert forall k :: k in t.chans ==> t.chans[k] in t.chans.Values;
  }

  // `got` names exactly the channels that `pid` has in the table, by type.
  ghost predicate GotOk(t: Table, pid: nat, got: map<nat, int>) {
    && (forall ty :: ty in got ==> IsType(ty))
    && (forall ty :: IsType(ty) ==> (ty in got <==> Pack(ty, pid) in t.chans))
    && (forall ty :: ty in got ==> t.chans[Pack(ty, pid)] == got[ty])
  }

  lemma GotIsLive(t: Table, pid: nat, got: map<nat, int>)
    requires Sound(t) && GotOk(t, pid, got)
    ensures got.Values <= t.chans.Values && got.Values <= t.ca.live.Keys
  {
  }

  lemma NskNewType(t: Table, pid: nat, slot: KeySlot, got: map<nat, int>, driver: Driver, ty: nat)
    requires Sound(t) && IsPid(pid) && GotOk(t, pid, got) && got.Values <= t.ca.live.Keys
    requires KeyTypeOf(slot).Some? && DscType(AlgoType(slot.id)) == Some(ty) && ty !in got
    ensures var (t', got', ok) := NskSlot(t, pid, slot, got, driver);
            && Sound(t') && Extends(t, t', pid, true) && GotOk(t', pid, got')
            && Untouched(t, t', t.ca.live.Keys - got.Values)
  {
    var (ca, h) := AllocChan(t.ca, Channel(pid, slot.algo, ty, []), driver);
    if h >= 0 {
      var ca' := SetKey(ca, h, KeySetting(KeyTypeOf(slot).value, SlotKte(slot)), driver).0;
      EnterSound(t, Pack(ty, pid), h, ca');
      assert Pack(ty, pid) in NskKeys({pid});
    }
  }

  lemma NskSlotSound(t: Table, pid: nat, slot: KeySlot, got: map<nat, int>, driver: Driver)
    requires Sound(t) && IsPid(pid) && GotOk(t, pid, got) && got.Values <= t.ca.live.Keys
    ensures var (t', got', ok) := NskSlot(t, pid, slot, got, driver);
            && Sound(t') && Extends(t, t', pid, true) && GotOk(t', pid, got')
            && Untouched(t, t', t.ca.live.Keys - got.Values)
  {
    if KeyTypeOf(slot).Some? && DscType(AlgoType(slot.id)).Some? {
      var ty := DscType(AlgoType(slot.id)).value;
      if ty in got {
        assert NskSlot(t, pid, slot, got, driver).0.chans == t.chans;
      } else {
        NskNewType(t, pid, slot, got, driver, ty);
      }
    }
  }

  lemma ExtendsChain(t: Table, u: Table, v: Table, pid: nat, nsk: bool)
    requires Extends(t, u, pid, nsk) && Extends(u, v, pid, nsk)
    ensures Extends(t, v, pid, nsk)
  {
  }

  lemma {:induction false} NskSlotsSound(t: Table, pid: nat, slots: seq<KeySlot>, i: nat, got: map<nat, int>,
                                         driver: Driver)
    requires i <= |slots| && Sound(t) && IsPid(pid) && GotOk(t, pid, got) && got.Values <= t.ca.live.Keys
    ensures var t' := NskSlots(t, pid, slots, i, got, driver).0;
            Sound(t') && Extends(t, t', pid, true) && Untouched(t, t', t.ca.live.Keys - got.Values)
    decreases |slots| - i
  {
    if i == |slots| {
    } else {
      NskSlotSound(t, pid, slots[i], got, driver);
      var (u, got', ok) := NskSlot(t, pid, slots[i], got, driver);
      if ok {
        NskSlotsSound(u, pid, slots, i + 1, got', driver);
        var v := NskSlots(u, pid, slots, i + 1, got', driver).0;
        ExtendsChain(t, u, v, pid, true);
        GotIsLive(u, pid, got');
        assert Untouched(t, v, t.ca.live.Keys - got.Values) by {
          forall h | h in t.ca.live.Keys - got.Values ensures h in u.ca.live.Keys - got'.Values {
            NewHandlesAreFresh(t, pid, slots[i], got, driver, h);
          }
        }
      }
    }
  }

  lemma NewHandlesAreFresh(t: Table, pid: nat, slot: KeySlot, got: map<nat, int>, driver: Driver, h: int)
    requires got.Values <= t.ca.live.Keys && h in t.ca.live && h !in got.Values
    ensures h !in NskSlot(t, pid, slot, got, driver).1.Values && h in NskSlot(t, pid, slot, got, driver).0.ca.live
  {
  }

  lemma {:induction false} BindKeeps(ca: Ca, h: int, slots: seq<KeySlot>, i: nat, driver: Driver)
    requires i <= |slots| && h in ca.live
    ensures var r := Bind(ca, h, slots, i, driver);
            && (forall g :: g in ca.live && g != h ==> r.0.live[g] == ca.live[g])
            && r.0.live[h].(keys := []) == ca.live[h].(keys := [])
            && (r.1 ==> r.0.live[h].keys == ca.live[h].keys + PlainSettings(slots[i..]))
    decreases |slots| - i
  {
    if i < |slots| && KeyTypeOf(slots[i]).Some? {
      var k := KeySetting(KeyTypeOf(slots[i]).value, slots[i].id);
      var (ca', ok) := SetKey(ca, h, k, driver);
      if ok {
        BindKeeps(ca', h, slots, i + 1, driver);
        assert slots[i..][0] == slots[i] && slots[i..][1..] == slots[i + 1..];
        var keys := ca.live[h].keys;
        assert (keys + [k]) + PlainSettings(slots[i + 1..]) == keys + ([k] + PlainSettings(slots[i + 1..]));
      }
    } else if i == |slots| {
      assert slots[i..] == [];
    }
  }

  // What common mode sets on every channel: each slot's key type and its whole id.
  function PlainSettings(slots: seq<KeySlot>): seq<KeySetting> {
    if slots == [] then []
    else
      match KeyTypeOf(slots[0])
      case None => PlainSettings(slots[1..])
      case Some(keyType) => [KeySetting(keyType, slots[0].id)] + PlainSettings(slots[1..])
  }

  lemma {:induction false} CommonChannelSound(t: Table, pid: nat, slots: seq<KeySlot>, algo: int, dscType: nat,
                                              driver: Driver)
    requires Sound(t) && pid !in t.chans
    ensures var (t', ok) := CommonChannel(t, pid, slots, algo, dscType, driver);
            && Sound(t') && Extends(t, t', pid, false) && Untouched(t, t', t.ca.live.Keys)
            && (ok ==>
                  pid in t'.chans &&
                  t'.ca.live[t'.chans[pid]] == Channel(pid, algo, dscType, PlainSettings(slots)))
            && (!ok ==> t'.chans == t.chans)
  {
    var c := Channel(pid, algo, dscType, []);
    var (ca, h) := AllocChan(t.ca, c, driver);
    if h >= 0 {
      var (ca', ok) := Bind(ca, h, slots, 0, driver);
      BindKeeps(ca, h, slots, 0, driver);
      assert slots[0..] == slots && [] + PlainSettings(slots) == PlainSettings(slots);
      assert ca'.live.Keys == t.ca.live.Keys + {h};
      if ok {
        EnterSound(t, pid, h, ca');
      }
    }
  }

  // ---------- what a programmed channel looks like ----------

  predicate SlotIs(slot: KeySlot, ty: nat) {
    DscType(AlgoType(slot.id)) == Some(ty)
  }

  predicate Present(slots: seq<KeySlot>, n: nat, ty: nat)
    requires n <= |slots|
  {
    exists j :: 0 <= j < n && SlotIs(slots[j], ty)
  }

  // The algorithm of the first slot of a type among the first `n`.
  function FirstAlgo(slots: seq<KeySlot>, n: nat, ty: nat): int
    requires n <= |slots|
  {
    if n == 0 then 0
    else if Present(slots, n - 1, ty) then FirstAlgo(slots, n - 1, ty)
    else slots[n - 1].algo
  }

  // The settings of the slots of one type among the first `n`: the slot id without its type bits, with
  // the IV flag.
  function Settings(slots: seq<KeySlot>, n: nat, ty: nat): seq<KeySetting>
    requires n <= |slots|
  {
    if n == 0 then []
    else if SlotIs(slots[n - 1], ty) && KeyTypeOf(slots[n - 1]).Some? then
      Settings(slots, n - 1, ty) + [KeySetting(KeyTypeOf(slots[n - 1]).value, SlotKte(slots[n - 1]))]
    else Settings(slots, n - 1, ty)
  }

  function NskChannel(pid: nat, slots: seq<KeySlot>, n: nat, ty: nat): Channel
    requires n <= |slots|
  {
    Channel(pid, FirstAlgo(slots, n, ty), ty, Settings(slots, n, ty))
  }

  lemma {:induction false} AbsentHasNoSettings(slots: seq<KeySlot>, n: nat, ty: nat)
    requires n <= |slots| && !Present(slots, n, ty)
    ensures Settings(slots, n, ty) == []
  {
    if n == 0 {
    } else {
      AbsentHasNoSettings(slots, n - 1, ty);
    }
  }

  // After `n` slots, `pid` has a channel of exactly the types seen, each programmed with its own slots.
  ghost predicate Programmed(t: Table, pid: nat, slots: seq<KeySlot>, n: nat, got: map<nat, int>)
    requires n <= |slots|
  {
    forall ty :: IsType(ty) ==>
      (ty in got <==> Present(slots, n, ty)) &&
      (ty in got ==> got[ty] in t.ca.live && t.ca.live[got[ty]] == NskChannel(pid, slots, n, ty))
  }

  lemma NskSlotPrograms(t: Table, pid: nat, slots: seq<KeySlot>, i: nat, got: map<nat, int>, driver: Driver)
    requires i < |slots| && Sound(t) && IsPid(pid) && GotOk(t, pid, got) && got.Values <= t.ca.live.Keys
    requires Programmed(t, pid, slots, i, got) && NskSlot(t, pid, slots[i], got, driver).2
    ensures var (t', got', _) := NskSlot(t, pid, slots[i], got, driver);
            Programmed(t', pid, slots, i + 1, got')
  {
    var (t', got', _) := NskSlot(t, pid, slots[i], got, driver);
    var ty0 := DscType(AlgoType(slots[i].id)).value;
    forall ty | IsType(ty)
      ensures ty in got' <==> Present(slots, i + 1, ty)
      ensures ty in got' ==> got'[ty] in t'.ca.live && t'.ca.live[got'[ty]] == NskChannel(pid, slots, i + 1, ty)
    {
      assert Present(slots, i + 1, ty) <==> Present(slots, i, ty) || ty == ty0;
      if ty == ty0 && ty !in got {
        AbsentHasNoSettings(slots, i, ty);
      }
    }
  }

  lemma {:induction false} NskSlotsProgram(t: Table, pid: nat, slots: seq<KeySlot>, i: nat, got: map<nat, int>,
                                           driver: Driver)
    returns (got': map<nat, int>)
    requires i <= |slots| && Sound(t) && IsPid(pid) && GotOk(t, pid, got) && got.Values <= t.ca.live.Keys
    requires Programmed(t, pid, slots, i, got) && NskSlots(t, pid, slots, i, got, driver).1
    ensures var t' := NskSlots(t, pid, slots, i, got, driver).0;
            GotOk(t', pid, got') && Programmed(t', pid, slots, |slots|, got')
    decreases |slots| - i
  {
    if i == |slots| {
      return got;
    }
    NskSlotSound(t, pid, slots[i], got, driver);
    NskSlotPrograms(t, pid, slots, i, got, driver);
    var (u, next, _) := NskSlot(t, pid, slots[i], got, driver);
    got' := NskSlotsProgram(u, pid, slots, i + 1, next, driver);
  }

  // ---------- agreement between the added pids and the table ----------

  ghost predicate PidAgrees(t: Table, pid: nat, m: Mode) {
    if m.nsk then
      forall ty :: IsType(ty) ==>
        (Pack(ty, pid) in t.chans <==> Present(m.slots, |m.slots|, ty)) &&
        (Pack(ty, pid) in t.chans ==>
          t.chans[Pack(ty, pid)] in t.ca.live &&
          t.ca.live[t.chans[Pack(ty, pid)]] == NskChannel(pid, m.slots, |m.slots|, ty))
    else
      pid in t.chans && t.chans[pid] in t.ca.live &&
      t.ca.live[t.chans[pid]] == Channel(pid, m.algo, m.dscType, PlainSettings(m.slots))
  }

  lemma OneChannelSound(t: Table, pid: nat, m: Mode, driver: Driver)
    requires Sound(t) && IsPid(pid) && KeysOf({pid}, m.nsk) !! t.chans.Keys
    ensures var (t', ok) := OneChannel(t, pid, m, driver);
            && Sound(t') && Extends(t, t', pid, m.nsk) && Untouched(t, t', t.ca.live.Keys)
            && (ok ==> PidAgrees(t', pid, m))
  {
    var (t', ok) := OneChannel(t, pid, m, driver);
    if m.nsk {
      assert Pack(COMMON, pid) in NskKeys({pid}) && Pack(TSD, pid) in NskKeys({pid});
      assert Pack(TSE, pid) in NskKeys({pid});
      assert GotOk(t, pid, map[]);
      NskSlotsSound(t, pid, m.slots, 0, map[], driver);
      if ok {
        var got := NskSlotsProgram(t, pid, m.slots, 0, map[], driver);
      }
    } else {
      CommonChannelSound(t, pid, m.slots, m.algo, m.dscType, driver);
    }
  }

  lemma KeysDisjoint(p: nat, pid: nat, nsk: bool, k: nat)
    requires IsPid(p) && IsPid(pid) && p != pid && k in KeysOf({p}, nsk)
    ensures k !in KeysOf({pid}, nsk)
  {
  }

  // Work on one pid leaves the agreement of the others alone.
  lemma OthersAgree(t: Table, t': Table, p: nat, pid: nat, m: Mode)
    requires IsPid(p) && IsPid(pid) && p != pid
    requires Extends(t, t', pid, m.nsk) && Untouched(t, t', t.ca.live.Keys) && PidAgrees(t, p, m)
    ensures PidAgrees(t', p, m)
  {
    if m.nsk {
      forall ty | IsType(ty) ensures Pack(ty, p) in t'.chans ==> Pack(ty, p) in t.chans {
        assert Pack(ty, p) in NskKeys({p});
        KeysDisjoint(p, pid, true, Pack(ty, p));
      }
    }
  }

  lemma {:induction false} AllocAllSound(t: Table, rest: set<nat>, m: Mode, driver: Driver)
    requires Sound(t) && (forall p :: p in rest ==> IsPid(p)) && KeysOf(rest, m.nsk) !! t.chans.Keys
    ensures var (t', ok) := AllocAll(t, rest, m, driver);
            && Sound(t') && t'.added == t.added && t'.chans.Keys <= t.chans.Keys + KeysOf(rest, m.nsk)
            && t.orphans <= t'.orphans && (m.nsk ==> t'.orphans == t.orphans)
            && (ok ==> forall p :: p in rest ==> PidAgrees(t', p, m))
            && (forall q :: IsPid(q) && q !in rest && PidAgrees(t, q, m) ==> PidAgrees(t', q, m))
    decreases rest
  {
    if rest == {} {
    } else {
      var pid := Least(rest);
      var less := rest - {pid};
      KeysGrow({pid}, rest, m.nsk);
      KeysGrow(less, rest, m.nsk);
      OneChannelSound(t, pid, m, driver);
      var (u, ok) := OneChannel(t, pid, m, driver);
      forall q | IsPid(q) && q != pid && PidAgrees(t, q, m) ensures PidAgrees(u, q, m) {
        OthersAgree(t, u, q, pid, m);
      }
      if ok {
        forall k | k in KeysOf(less, m.nsk) ensures k !in u.chans {
          KeyOwner(less, m.nsk, k, pid);
        }
        AllocAllSound(u, less, m, driver);
      }
    }
  }

  lemma FillSound(t: Table, m: Mode, driver: Driver)
    requires Sound(t) && PidsOk(t) && t.chans == map[]
    ensures var (t', ok) := Fill(t, m, driver);
            && Sound(t') && t'.added == t.added && t'.chans.Keys <= KeysOf(t.added, m.nsk)
            && (m.nsk ==> t'.orphans == t.orphans)
            && (if ok then forall p :: p in t.added ==> PidAgrees(t', p, m) else t'.chans == map[])
  {
    AllocAllSound(t, t.added, m, driver);
    var (u, ok) := AllocAll(t, t.added, m, driver);
    ClearEmpties(u, m.nsk);
  }

  lemma AddSound(t: Table, pid: nat, m: Mode, driver: Driver)
    requires Sound(t) && PidsOk(t) && pid in t.added && t.chans.Keys <= KeysOf(t.added, m.nsk)
    ensures var t' := AddChannel(t, pid, m, driver).0;
            && Sound(t') && t'.added == t.added && t'.chans.Keys <= KeysOf(t.added, m.nsk)
            && (m.nsk ==> t'.orphans == t.orphans)
  {
    if KeysOf({pid}, m.nsk) !! t.chans.Keys {
      OneChannelSound(t, pid, m, driver);
      KeysGrow({pid}, t.added, m.nsk);
    }
  }

  // A pid that has no channel yet gets the channels it should have; the others keep theirs.
  lemma NewPidAgrees(t: Table, before: set<nat>, pid: nat, m: Mode, driver: Driver)
    requires Sound(t) && PidsOk(t) && t.added == before + {pid} && KeysOf({pid}, m.nsk) !! t.chans.Keys
    requires (forall p :: p in before ==> PidAgrees(t, p, m)) && OneChannel(t, pid, m, driver).1
    ensures forall p :: p in t.added ==> PidAgrees(OneChannel(t, pid, m, driver).0, p, m)
  {
    OneChannelSound(t, pid, m, driver);
    var t' := OneChannel(t, pid, m, driver).0;
    forall p | p in t.added ensures PidAgrees(t', p, m) {
      if p != pid {
        OthersAgree(t, t', p, pid, m);
      }
    }
  }

  lemma AddAgrees(t: Table, before: set<nat>, pid: nat, m: Mode, driver: Driver)
    requires Sound(t) && PidsOk(t) && t.added == before + {pid} && t.chans.Keys <= KeysOf(before, m.nsk)
    requires (forall p :: p in before ==> PidAgrees(t, p, m)) && AddChannel(t, pid, m, driver).1
    ensures forall p :: p in t.added ==> PidAgrees(AddChannel(t, pid, m, driver).0, p, m)
  {
    if KeysOf({pid}, m.nsk) !! t.chans.Keys {
      NewPidAgrees(t, before, pid, m, driver);
    } else {
      var k :| k in KeysOf({pid}, m.nsk) && k in t.chans;
      if pid !in before {
        KeyOwner(before, m.nsk, k, pid);
      }
    }
  }

  // ---------- what a failed bind leaves behind ----------

  // One channel more is live outside the table: that of a pid of `pids`, with the settings of the slots
  // before one that failed.
  ghost predicate Leaks(t: Table, t': Table, pids: set<nat>, m: Mode) {
    exists h: int, pid: nat, k: nat ::
      h !in t.ca.live && t'.orphans == t.orphans + {h} && pid in pids && k < |m.slots| && IsLeak(t', h, pid, k, m)
  }

  predicate IsLeak(t: Table, h: int, pid: nat, k: nat, m: Mode)
    requires k <= |m.slots|
  {
    h in t.ca.live && t.ca.live[h] == Channel(pid, m.algo, m.dscType, PlainSettings(m.slots[..k]))
  }

  lemma LeaksFrom(t: Table, u: Table, t': Table, pids: set<nat>, m: Mode)
    requires Leaks(t, t', pids, m) && t.orphans == u.orphans && u.ca.live.Keys <= t.ca.live.Keys
    ensures Leaks(u, t', pids, m)
  {
  }

  // A failed bind has made the settings of the slots before the one that failed.
  lemma {:induction false} BindStops(ca: Ca, h: int, slots: seq<KeySlot>, i: nat, driver: Driver) returns (k: nat)
    requires i <= |slots| && h in ca.live && !Bind(ca, h, slots, i, driver).1
    ensures i <= k < |slots|
    ensures Bind(ca, h, slots, i, driver).0.live[h] == ca.live[h].(keys := ca.live[h].keys + PlainSettings(slots[i..k]))
    decreases |slots| - i
  {
    k := i;
    assert slots[i..i] == [];
    assert ca.live[h].keys + [] == ca.live[h].keys;
    if KeyTypeOf(slots[i]).Some? {
      var setting := KeySetting(KeyTypeOf(slots[i]).value, slots[i].id);
      var (ca', ok) := SetKey(ca, h, setting, driver);
      if ok {
        k := BindStops(ca', h, slots, i + 1, driver);
        assert slots[i..k][0] == slots[i] && slots[i..k][1..] == slots[i + 1..k];
        var keys := ca.live[h].keys;
        var more := PlainSettings(slots[i + 1..k]);
        assert (keys + [setting]) + more == keys + ([setting] + more);
      }
    }
  }

  lemma CommonLeak(t: Table, pid: nat, m: Mode, driver: Driver)
    requires Sound(t) && !m.nsk && pid !in t.chans
    ensures var (t', ok) := OneChannel(t, pid, m, driver);
            if ok then t'.orphans == t.orphans
            else (t'.orphans == t.orphans && t'.ca.live == t.ca.live) || Leaks(t, t', {pid}, m)
  {
    var (ca, h) := AllocChan(t.ca, Channel(pid, m.algo, m.dscType, []), driver);
    if h >= 0 {
      var (ca', ok) := Bind(ca, h, m.slots, 0, driver);
      if !ok {
        var k := BindStops(ca, h, m.slots, 0, driver);
        assert m.slots[0..k] == m.slots[..k];
        assert [] + PlainSettings(m.slots[..k]) == PlainSettings(m.slots[..k]);
        assert IsLeak(OneChannel(t, pid, m, driver).0, h, pid, k, m);
      }
    }
  }

  lemma {:induction false} AllocAllLeaks(t: Table, rest: set<nat>, m: Mode, driver: Driver)
    requires Sound(t) && (forall p :: p in rest ==> IsPid(p)) && !m.nsk && rest !! t.chans.Keys
    ensures var (t', ok) := AllocAll(t, rest, m, driver);
            t'.orphans == t.orphans || (!ok && Leaks(t, t', rest, m))
    decreases rest
  {
    if rest == {} {
    } else {
      var pid := Least(rest);
      assert KeysOf({pid}, false) !! t.chans.Keys;
      OneChannelSound(t, pid, m, driver);
      CommonLeak(t, pid, m, driver);
      var (u, ok) := OneChannel(t, pid, m, driver);
      if ok {
        AllocAllLeaks(u, rest - {pid}, m, driver);
        var v := AllocAll(u, rest - {pid}, m, driver).0;
        if Leaks(u, v, rest - {pid}, m) {
          LeaksFrom(u, t, v, rest - {pid}, m);
        }
      }
    }
  }

  lemma FillLeaks(t: Table, m: Mode, driver: Driver)
    requires Sound(t) && PidsOk(t) && t.chans == map[] && !m.nsk
    ensures var (t', ok) := Fill(t, m, driver);
            t'.orphans == t.orphans || (!ok && Leaks(t, t', t.added, m))
  {
    AllocAllSound(t, t.added, m, driver);
    AllocAllLeaks(t, t.added, m, driver);
    var u := AllocAll(t, t.added, m, driver).0;
    if Leaks(t, u, t.added, m) {
      var h: int, pid: nat, k: nat :|
        h !in t.ca.live && u.orphans == t.orphans + {h} && pid in t.added && k < |m.slots| && IsLeak(u, h, pid, k, m);
      assert h in u.orphans && h !in u.chans.Values;
      assert IsLeak(Clear(u, false), h, pid, k, m);
    }
  }

  // ---------- when common mode succeeds ----------

  // Every key slot has a key type.
  predicate AllTyped(slots: seq<KeySlot>, i: nat) {
    forall j :: i <= j < |slots| ==> slots[j].parity != ParityOther
  }

  // The driver answers zero to `n` calls from `from` on.
  predicate ZeroAnswers(driver: Driver, from: nat, n: nat) {
    forall j: nat :: from <= j < from + n ==> driver(j) == 0
  }

  // Binding makes one call per slot, and succeeds exactly if all slots have a key type and all calls answer zero.
  lemma {:induction false} BindSucceedsExactly(ca: Ca, h: int, slots: seq<KeySlot>, i: nat, driver: Driver)
    requires i <= |slots| && h in ca.live
    ensures var (ca', ok) := Bind(ca, h, slots, i, driver);
            && (ok <==> AllTyped(slots, i) && ZeroAnswers(driver, ca.tick, |slots| - i))
            && (ok ==> ca'.tick == ca.tick + |slots| - i)
    decreases |slots| - i
  {
    if i == |slots| {
    } else if slots[i].parity == ParityOther {
      assert !AllTyped(slots, i);
    } else {
      var setting := KeySetting(KeyTypeOf(slots[i]).value, slots[i].id);
      var (ca', ok) := SetKey(ca, h, setting, driver);
      assert ok <==> driver(ca.tick) == 0;
      if ok {
        BindSucceedsExactly(ca', h, slots, i + 1, driver);
        assert AllTyped(slots, i) <==> AllTyped(slots, i + 1);
      }
    }
  }

  // The driver's answers from `tick` on for `pids` channels of `n` keys each: a fresh handle and `n` zeros.
  predicate Obliges(driver: Driver, tick: nat, live: set<int>, pids: nat, n: nat)
    decreases pids
  {
    pids == 0 ||
    (driver(tick) >= 0 && driver(tick) !in live && ZeroAnswers(driver, tick + 1, n) &&
     Obliges(driver, tick + 1 + n, live + {driver(tick)}, pids - 1, n))
  }

  // Common mode can work for these pids: the slots have key types, and the driver obliges.
  predicate CanWork(ca: Ca, pids: set<nat>, slots: seq<KeySlot>, driver: Driver) {
    (pids == {} || AllTyped(slots, 0)) && Obliges(driver, ca.tick, ca.live.Keys, |pids|, |slots|)
  }

  // How many of the pids come before.
  function Rank(pids: set<nat>, p: nat): nat {
    |set q | q in pids && q < p|
  }

  lemma CommonSucceedsExactly(t: Table, pid: nat, m: Mode, driver: Driver)
    requires !m.nsk
    ensures var (u, ok), h, n := OneChannel(t, pid, m, driver), driver(t.ca.tick), |m.slots|;
            && (ok <==> (h >= 0 && h !in t.ca.live && AllTyped(m.slots, 0) && ZeroAnswers(driver, t.ca.tick + 1, n)))
            && (ok ==> u.chans == t.chans[pid := h] && u.ca.tick == t.ca.tick + 1 + n)
            && (ok ==> u.ca.live.Keys == t.ca.live.Keys + {h})
  {
    var (ca, h) := AllocChan(t.ca, Channel(pid, m.algo, m.dscType, []), driver);
    if h >= 0 {
      BindSucceedsExactly(ca, h, m.slots, 0, driver);
    }
  }

  lemma RankStep(pids: set<nat>, p: nat)
    requires p in pids && p != Least(pids)
    ensures Rank(pids, p) == Rank(pids - {Least(pids)}, p) + 1
  {
    var before, rest := set q | q in pids && q < p, set q | q in pids - {Least(pids)} && q < p;
    assert before == rest + {Least(pids)};
  }

  lemma RankLeast(pids: set<nat>)
    requires pids != {}
    ensures Rank(pids, Least(pids)) == 0
  {
    assert (set q | q in pids && q < Least(pids)) == {};
  }

  // In common mode the channels of all pids are set up exactly if the slots have key types and the driver obliges.
  lemma {:induction false} AllocAllExactly(t: Table, rest: set<nat>, m: Mode, driver: Driver)
    requires !m.nsk
    ensures AllocAll(t, rest, m, driver).1 <==> CanWork(t.ca, rest, m.slots, driver)
    decreases rest
  {
    if rest == {} {
    } else {
      var pid := Least(rest);
      CommonSucceedsExactly(t, pid, m, driver);
      var (u, ok) := OneChannel(t, pid, m, driver);
      if ok {
        AllocAllExactly(u, rest - {pid}, m, driver);
      }
    }
  }

  // And then the pids get the handles that it gives out in ascending order, one after each pid's keys.
  lemma {:induction false} AllocAllHandles(t: Table, rest: set<nat>, m: Mode, driver: Driver, p: nat)
    requires !m.nsk && p in rest && AllocAll(t, rest, m, driver).1
    ensures var chans := AllocAll(t, rest, m, driver).0.chans;
            p in chans && chans[p] == driver(t.ca.tick + Rank(rest, p) * (1 + |m.slots|))
    decreases rest
  {
    var pid := Least(rest);
    var u := OneChannel(t, pid, m, driver).0;
    CommonSucceedsExactly(t, pid, m, driver);
    if p == pid {
      RankLeast(rest);
      AllocAllLeaves(u, rest - {pid}, m, driver, pid);
    } else {
      AllocAllHandles(u, rest - {pid}, m, driver, p);
      RankStep(rest, p);
      TicksAdd(t.ca.tick, Rank(rest - {pid}, p), |m.slots|);
    }
  }

  lemma TicksAdd(tick: nat, rank: nat, n: nat)
    ensures tick + 1 + n + rank * (1 + n) == tick + (rank + 1) * (1 + n)
  {
  }

  lemma {:induction false} AllocAllLeaves(t: Table, rest: set<nat>, m: Mode, driver: Driver, k: nat)
    requires !m.nsk && k !in rest
    ensures var u := AllocAll(t, rest, m, driver).0;
            (k in u.chans <==> k in t.chans) && (k in t.chans ==> u.chans[k] == t.chans[k])
    decreases rest
  {
    if rest == {} {
    } else {
      var pid := Least(rest);
      var (u, ok) := OneChannel(t, pid, m, driver);
      if ok {
        AllocAllLeaves(u, rest - {pid}, m, driver, k);
      }
    }
  }

  // So becoming ready in common mode succeeds exactly then.
  lemma FillCommonExactly(t: Table, m: Mode, driver: Driver, p: nat)
    requires !m.nsk
    ensures var (u, ok) := Fill(t, m, driver);
            && (ok <==> CanWork(t.ca, t.added, m.slots, driver))
            && (ok && p in t.added ==> p in u.chans)
            && (ok && p in t.added ==> u.chans[p] == driver(t.ca.tick + Rank(t.added, p) * (1 + |m.slots|)))
  {
    AllocAllExactly(t, t.added, m, driver);
    if AllocAll(t, t.added, m, driver).1 && p in t.added {
      AllocAllHandles(t, t.added, m, driver, p);
    }
  }

  // ---------- when the key slots of a pid succeed ----------

  // The channel type that a slot asks for: common for ESA, TSD for LDE, TSE for LEN.
  predicate AsksFor(slot: KeySlot, ty: nat) {
    (0x4000_0000 <= slot.id < 0x8000_0000 && ty == 0) || (slot.id < 0x4000_0000 && ty == 1) ||
    (0x8000_0000 <= slot.id < 0xC000_0000 && ty == 2)
  }

  // The driver's answers from `tick` on for the slots from `i` on, when the types in `got` have a channel: a fresh
  // handle for each type's first slot, and zero for every key.
  predicate NskObliges(driver: Driver, tick: nat, live: set<int>, got: set<nat>, slots: seq<KeySlot>, i: nat)
    requires i <= |slots|
    decreases |slots| - i
  {
    i == |slots| ||
    (slots[i].parity != ParityOther && slots[i].id < 0xC000_0000 &&
     var ty := if slots[i].id < 0x4000_0000 then 1 else if slots[i].id < 0x8000_0000 then 0 else 2;
     if ty in got then driver(tick) == 0 && NskObliges(driver, tick + 1, live, got, slots, i + 1)
     else
       driver(tick) >= 0 && driver(tick) !in live && driver(tick + 1) == 0 &&
       NskObliges(driver, tick + 2, live + {driver(tick)}, got + {ty}, slots, i + 1))
  }

  lemma NskSlotSucceedsExactly(t: Table, pid: nat, slot: KeySlot, got: map<nat, int>, driver: Driver, ty: nat)
    requires got.Values <= t.ca.live.Keys && AsksFor(slot, ty)
    ensures var (t', got', ok) := NskSlot(t, pid, slot, got, driver);
            var h := driver(t.ca.tick);
            && (ty in got ==> (ok <==> slot.parity != ParityOther && h == 0))
            && (ty !in got ==>
                  (ok <==> slot.parity != ParityOther && h >= 0 && h !in t.ca.live && driver(t.ca.tick + 1) == 0))
            && (ok && ty in got ==> t'.ca.tick == t.ca.tick + 1 && t'.ca.live.Keys == t.ca.live.Keys && got' == got)
            && (ok && ty !in got ==> t'.ca.tick == t.ca.tick + 2 && t'.ca.live.Keys == t.ca.live.Keys + {h})
            && (ok && ty !in got ==> got' == got[ty := h])
  {
    assert DscType(AlgoType(slot.id)) == Some(ty);
    assert ty in got ==> got[ty] in got.Values;
  }

  // The key-slot loop of a pid succeeds exactly if every slot has a key type and an algorithm type and the driver
  // obliges.
  lemma {:induction false} NskSlotsSucceedExactly(t: Table, pid: nat, slots: seq<KeySlot>, i: nat, got: map<nat, int>,
                                                  driver: Driver)
    requires i <= |slots| && got.Values <= t.ca.live.Keys
    ensures NskSlots(t, pid, slots, i, got, driver).1 <==>
            NskObliges(driver, t.ca.tick, t.ca.live.Keys, got.Keys, slots, i)
    decreases |slots| - i
  {
    if i == |slots| {
    } else if slots[i].id >= 0xC000_0000 {
      assert DscType(AlgoType(slots[i].id)) == None;
    } else {
      var ty := if slots[i].id < 0x4000_0000 then 1 else if slots[i].id < 0x8000_0000 then 0 else 2;
      NskSlotSucceedsExactly(t, pid, slots[i], got, driver, ty);
      var (t', got', ok) := NskSlot(t, pid, slots[i], got, driver);
      if ok {
        NskSlotsSucceedExactly(t', pid, slots, i + 1, got', driver);
        assert ty !in got ==> got'.Keys == got.Keys + {ty};
      }
    }
  }

  lemma {:induction false} AllocAllKeepsPids(t: Table, rest: set<nat>, m: Mode, driver: Driver)
    ensures AllocAll(t, rest, m, driver).0.added == t.added
    decreases rest
  {
    if rest == {} {
    } else {
      var pid := Least(rest);
      if m.nsk {
        SlotsKeepPids(t, pid, m.slots, 0, map[], driver);
      }
      AllocAllKeepsPids(OneChannel(t, pid, m, driver).0, rest - {pid}, m, driver);
    }
  }

  lemma {:induction false} SlotsKeepPids(t: Table, pid: nat, slots: seq<KeySlot>, i: nat, got: map<nat, int>,
                                         driver: Driver)
    requires i <= |slots| && got.Values <= t.ca.live.Keys
    ensures NskSlots(t, pid, slots, i, got, driver).0.added == t.added
    decreases |slots| - i
  {
    if i == |slots| {
    } else {
      var (t', got', ok) := NskSlot(t, pid, slots[i], got, driver);
      if ok {
        SlotsKeepPids(t', pid, slots, i + 1, got', driver);
      }
    }
  }

  lemma FillKeepsPids(t: Table, m: Mode, driver: Driver)
    ensures Fill(t, m, driver).0.added == t.added
  {
    AllocAllKeepsPids(t, t.added, m, driver);
  }

  // ---------- dropping one pid's channels ----------

  // Exactly the pid, its keys and the channels under them are gone.
  ghost predicate PidRemoved(t: Table, t': Table, pid: nat, nsk: bool) {
    && t'.added == t.added - {pid} && t'.orphans == t.orphans && t'.ca.tick == t.ca.tick
    && (forall k :: k in t'.chans <==> k in t.chans && k !in OwnKeys(pid, nsk))
    && (forall k :: k in t'.chans ==> t'.chans[k] == t.chans[k])
    && (forall h :: h in t'.ca.live <==>
          h in t.ca.live && !exists k :: k in OwnKeys(pid, nsk) && k in t.chans && t.chans[k] == h)
    && (forall h :: h in t'.ca.live ==> t'.ca.live[h] == t.ca.live[h])
  }

  // And no channel of another pid, nor one outside the table.
  lemma DropExactly(t: Table, pid: nat, nsk: bool)
    requires Sound(t)
    ensures var u := Drop(t, KeysOf({pid}, nsk));
            var t' := u.(added := u.added - {pid});
            && PidRemoved(t, t', pid, nsk)
            && (forall k :: k in t'.chans ==> t'.chans[k] in t'.ca.live) && t.orphans <= t'.ca.live.Keys
  {
    KeysExactly({}, pid, nsk);
    var u := Drop(t, KeysOf({pid}, nsk));
    forall k | k in u.chans ensures u.chans[k] in u.ca.live {
      assert t.chans[k] in t.chans.Values;
    }
    forall h | h in t.orphans ensures h in u.ca.live {
      assert forall k :: k in t.chans ==> t.chans[k] in t.chans.Values;
    }
  }

  lemma RemoveSound(t: Table, pid: nat, nsk: bool)
    requires Sound(t) && PidsOk(t) && IsPid(pid) && t.chans.Keys <= KeysOf(t.added, nsk)
    ensures var t' := Drop(t, KeysOf({pid}, nsk));
            Sound(t') && t'.chans.Keys <= KeysOf(t.added - {pid}, nsk)
  {
    DropSound(t, KeysOf({pid}, nsk));
    assert KeysOf(t.added, nsk) <= KeysOf(t.added - {pid}, nsk) + KeysOf({pid}, nsk);
  }

  lemma RemoveAgrees(t: Table, pid: nat, p: nat, m: Mode)
    requires Sound(t) && IsPid(pid) && IsPid(p) && p != pid && PidAgrees(t, p, m)
    ensures PidAgrees(Drop(t, KeysOf({pid}, m.nsk)), p, m)
  {
    DropSound(t, KeysOf({pid}, m.nsk));
    if m.nsk {
      forall ty | IsType(ty) ensures Pack(ty, p) !in KeysOf({pid}, true) {
        assert Pack(ty, p) in NskKeys({p});
        KeysDisjoint(p, pid, true, Pack(ty, p));
      }
    }
  }

  // Recording a pid and setting up its channels keeps the agreement of all.
  lemma RecordAgrees(t: Table, pid: nat, m: Mode, driver: Driver)
    requires Sound(t) && PidsOk(t) && IsPid(pid) && t.chans.Keys <= KeysOf(t.added, m.nsk)
    requires forall p :: p in t.added ==> PidAgrees(t, p, m)
    requires AddChannel(t.(added := t.added + {pid}), pid, m, driver).1
    ensures var t' := AddChannel(t.(added := t.added + {pid}), pid, m, driver).0;
            t'.added == t.added + {pid} && forall p :: p in t'.added ==> PidAgrees(t', p, m)
  {
    var u := t.(added := t.added + {pid});
    forall p | p in t.added ensures PidAgrees(u, p, m) {
      assert PidAgrees(t, p, m);
    }
    KeysGrow(t.added, u.added, m.nsk);
    AddSound(u, pid, m, driver);
    AddAgrees(u, t.added, pid, m, driver);
  }

  lemma ForgetAgrees(t: Table, pid: nat, m: Mode)
    requires Sound(t) && PidsOk(t) && IsPid(pid) && forall p :: p in t.added ==> PidAgrees(t, p, m)
    ensures var u := Drop(t, KeysOf({pid}, m.nsk));
            var t' := u.(added := u.added - {pid});
            forall p :: p in t'.added ==> PidAgrees(t', p, m)
  {
  }

  // When every added pid agrees, the keys are exactly the pids, times the types present in NSK mode.
  lemma KeysExact(t: Table, m: Mode, k: nat)
    requires t.chans.Keys <= KeysOf(t.added, m.nsk) && forall p :: p in t.added ==> PidAgrees(t, p, m)
    ensures k in t.chans <==>
      if m.nsk then exists ty, p :: IsType(ty) && p in t.added && Present(m.slots, |m.slots|, ty) && k == Pack(ty, p)
      else k in t.added
  {
  }

  lemma KeysGrow(a: set<nat>, b: set<nat>, nsk: bool)
    requires a <= b
    ensures KeysOf(a, nsk) <= KeysOf(b, nsk)
  {
  }

  lemma KeyOwner(pids: set<nat>, nsk: bool, k: nat, pid: nat)
    requires k in KeysOf(pids, nsk) && pid !in pids && IsPid(pid) && forall p :: p in pids ==> IsPid(p)
    ensures k !in KeysOf({pid}, nsk)
  {
  }

  // ---------- the loops ----------

  lemma DropTwice(t: Table, a: set<nat>, b: set<nat>)
    ensures Drop(Drop(t, a), b) == Drop(t, a + b)
  {
  }

  lemma ClearStep(t: Table, done: set<nat>, pid: nat, nsk: bool)
    ensures Drop(Drop(t, KeysOf(done, nsk)), KeysOf({pid}, nsk)) == Drop(t, KeysOf(done + {pid}, nsk))
  {
    DropTwice(t, KeysOf(done, nsk), KeysOf({pid}, nsk));
    assert KeysOf(done + {pid}, nsk) == KeysOf(done, nsk) + KeysOf({pid}, nsk);
  }

  lemma DropNothing(t: Table)
    ensures Drop(t, {}) == t
  {
  }

  class Channels {
    var addedPid: set<nat>
    var pidToDscChannel: map<nat, int>
    var ca: Ca
    var isNskDsc: bool
    var keyslots: seq<KeySlot>
    var dscAlgo: int
    var dscType: nat
    ghost var orphans: set<int>

    ghost function T(): Table
      reads this
    {
      Table(addedPid, pidToDscChannel, ca, orphans)
    }

    function M(): Mode
      reads this
    {
      Mode(isNskDsc, keyslots, dscAlgo, dscType)
    }

    constructor (algo: int, type_: nat)
      ensures T() == Table({}, map[], Ca(map[], 0), {}) && M() == Mode(false, [], algo, type_)
    {
      addedPid, pidToDscChannel, ca := {}, map[], Ca(map[], 0);
      isNskDsc, keyslots, dscAlgo, dscType := false, [], algo, type_;
      orphans := {};
    }

    method SetKeyOn(h: int, k: KeySetting, driver: Driver) returns (ok: bool)
      requires h in ca.live
      modifies this`ca
      ensures (ca, ok) == SetKey(old(ca), h, k, driver)
    {
      var r := SetKey(ca, h, k, driver);
      ca, ok := r.0, r.1;
    }

    method BindDscChannelToKeyTable(h: int, driver: Driver) returns (ok: bool)
      requires h in ca.live
      modifies this`ca
      ensures (ca, ok) == Bind(old(ca), h, keyslots, 0, driver)
    {
      var i := 0;
      while i < |keyslots|
        invariant i <= |keyslots| && h in ca.live
        invariant Bind(ca, h, keyslots, i, driver) == Bind(old(ca), h, keyslots, 0, driver)
      {
        var keyType := KeyTypeOf(keyslots[i]);
        if keyType.None? {
          return false;
        }
        ok := SetKeyOn(h, KeySetting(keyType.value, keyslots[i].id), driver);
        if !ok {
          return;
        }
        i := i + 1;
      }
      return true;
    }

    // The common-mode body of `addPid` and of `allocDscChannels`.
    method AllocCommonChannel(pid: nat, driver: Driver) returns (ok: bool)
      modifies this`ca, this`pidToDscChannel, this`orphans
      ensures (T(), ok) == CommonChannel(old(T()), pid, keyslots, dscAlgo, dscType, driver)
    {
      var r := AllocChan(ca, Channel(pid, dscAlgo, dscType, []), driver);
      ca := r.0;
      var handle := r.1;
      if handle < 0 {
        return false;
      }
      ok := BindDscChannelToKeyTable(handle, driver);
      if ok {
        pidToDscChannel := pidToDscChannel[pid := handle];
      } else {
        orphans := orphans + {handle};
      }
    }

    // The NSK body of `addPid` and of `allocNskDscChannels`.
    method AllocNskChannels(pid: nat, driver: Driver) returns (ok: bool)
      modifies this`ca, this`pidToDscChannel
      ensures (T(), ok) == NskSlots(old(T()), pid, keyslots, 0, map[], driver)
    {
      var index: map<nat, int> := map[];
      var i := 0;
      while i < |keyslots|
        invariant i <= |keyslots| && index.Values <= ca.live.Keys
        invariant NskSlots(T(), pid, keyslots, i, index, driver) == NskSlots(old(T()), pid, keyslots, 0, map[], driver)
      {
        var slot := keyslots[i];
        var keyType := KeyTypeOf(slot);
        if keyType.None? {
          return false;
        }
        var ty := DscType(AlgoType(slot.id));
        if ty.None? {
          return false;
        }
        ghost var before, got := T(), index;
        var h: int;
        if ty.value in index {
          h := index[ty.value];
        } else {
          var r := AllocChan(ca, Channel(pid, slot.algo, ty.value, []), driver);
          ca, h := r.0, r.1;
          if h < 0 {
            return false;
          }
          pidToDscChannel := pidToDscChannel[Pack(ty.value, pid) := h];
          index := index[ty.value := h];
        }
        ok := SetKeyOn(h, KeySetting(keyType.value, SlotKte(slot)), driver);
        assert (T(), index, ok) == NskSlot(before, pid, slot, got, driver);
        if !ok {
          return;
        }
        i := i + 1;
      }
      return true;
    }

    // `allocDscChannels` or `allocNskDscChannels`, by mode.
    method AllocDscChannels(driver: Driver) returns (ok: bool)
      modifies this`ca, this`pidToDscChannel, this`orphans
      ensures (T(), ok) == AllocAll(old(T()), addedPid, M(), driver)
    {
      var rest := addedPid;
      while rest != {}
        invariant AllocAll(T(), rest, M(), driver) == AllocAll(old(T()), addedPid, M(), driver)
        decreases rest
      {
        var pid := Least(rest);
        if isNskDsc {
          ok := AllocNskChannels(pid, driver);
        } else {
          ok := AllocCommonChannel(pid, driver);
        }
        if !ok {
          return;
        }
        rest := rest - {pid};
      }
      return true;
    }

    method FreeKey(key: nat)
      modifies this`ca, this`pidToDscChannel
      ensures T() == Drop(old(T()), {key})
    {
      if key in pidToDscChannel {
        ca := ca.(live := ca.live - {pidToDscChannel[key]});
        pidToDscChannel := pidToDscChannel - {key};
        assert Handles(old(pidToDscChannel), {key}) == {old(pidToDscChannel)[key]};
      } else {
        assert Handles(pidToDscChannel, {key}) == {} && pidToDscChannel - {key} == pidToDscChannel;
        assert ca.live - {} == ca.live;
      }
    }

    method FreePid(pid: nat)
      modifies this`ca, this`pidToDscChannel
      ensures T() == Drop(old(T()), KeysOf({pid}, isNskDsc))
    {
      ghost var t := T();
      if isNskDsc {
        FreeKey(Pack(COMMON, pid));
        FreeKey(Pack(TSD, pid));
        FreeKey(Pack(TSE, pid));
        DropTwice(t, {Pack(COMMON, pid)}, {Pack(TSD, pid)});
        DropTwice(t, {Pack(COMMON, pid)} + {Pack(TSD, pid)}, {Pack(TSE, pid)});
        assert KeysOf({pid}, true) == {Pack(COMMON, pid)} + {Pack(TSD, pid)} + {Pack(TSE, pid)};
      } else {
        FreeKey(pid);
      }
    }

    // `clearDscChannels` or `clearNskDscChannels`, by mode.
    method ClearDscChannels()
      modifies this`ca, this`pidToDscChannel
      ensures T() == Clear(old(T()), isNskDsc)
    {
      ghost var t := T();
      ghost var done: set<nat> := {};
      var rest := addedPid;
      DropNothing(t);
      assert KeysOf({}, isNskDsc) == {};
      while rest != {}
        invariant done + rest == addedPid && T() == Drop(t, KeysOf(done, isNskDsc))
        decreases rest
      {
        var pid := Least(rest);
        FreePid(pid);
        ClearStep(t, done, pid, isNskDsc);
        done, rest := done + {pid}, rest - {pid};
      }
      assert done == addedPid;
    }

    // The channel part of `addPid`.
    method AddPidChannel(pid: nat, driver: Driver) returns (ok: bool)
      modifies this`ca, this`pidToDscChannel, this`orphans
      ensures (T(), ok) == AddChannel(old(T()), pid, M(), driver)
    {
      if isNskDsc {
        var isChannelFound := Pack(COMMON, pid) in pidToDscChannel || Pack(TSD, pid) in pidToDscChannel ||
                              Pack(TSE, pid) in pidToDscChannel;
        assert KeysOf({pid}, true) == {Pack(COMMON, pid), Pack(TSD, pid), Pack(TSE, pid)};
        if isChannelFound {
          return true;
        }
        ok := AllocNskChannels(pid, driver);
      } else {
        if pid in pidToDscChannel {
          return true;
        }
        ok := AllocCommonChannel(pid, driver);
      }
    }

    // The queries of `isDescramblerReady`, in their order.
    method LoadSlots(r: SlotReply, failed: seq<KeySlot>) returns (ok: bool)
      modifies this`isNskDsc, this`keyslots, this`dscAlgo, this`dscType
      ensures (M(), ok) == ReadMode(old(M()), r, failed)
    {
      if r.nsk.Some? {
        isNskDsc := r.nsk.value;
      }
      if r.slots.None? {
        keyslots := failed;
        return false;
      }
      keyslots := r.slots.value;
      var i := 0;
      assert keyslots[0..] == keyslots;
      while i < |keyslots|
        invariant i <= |keyslots|
        invariant M() == old(M()).(nsk := isNskDsc, slots := r.slots.value)
        invariant isNskDsc == if r.nsk.Some? then r.nsk.value else old(isNskDsc)
        invariant PickAlgo(keyslots, r.isEnc, dscAlgo) == PickAlgo(keyslots[i..], r.isEnc, dscAlgo)
      {
        if keyslots[i].isEnc == r.isEnc {
          assert keyslots[i..][0] == keyslots[i];
          dscAlgo := keyslots[i].algo;
          break;
        }
        assert keyslots[i..][0] == keyslots[i] && keyslots[i..][1..] == keyslots[i + 1..];
        i := i + 1;
      }
      assert dscAlgo == PickAlgo(r.slots.value, r.isEnc, old(dscAlgo));
      if dscAlgo == ALGO_UNKNOWN {
        return false;
      }
      match r.ty {
        case TypeFailed => dscType := COMMON;
        case TypeIs(ty) => dscType := ty;
        case TypeOther =>
      }
      return true;
    }

    method FillChannels(driver: Driver) returns (ok: bool)
      modifies this`ca, this`pidToDscChannel, this`orphans
      ensures (T(), ok) == Fill(old(T()), M(), driver)
    {
      ok := AllocDscChannels(driver);
      if !ok {
        ClearDscChannels();
      }
    }
  }
}
