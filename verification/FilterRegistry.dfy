/**
 The filters of a demux, the sets of ids that are played back and recorded, and the copy that a playback DVR
 keeps of the first.
 */
module FilterRegistry {
  import opened IdSets
  import opened Options

  // TS filters are for recording, for PCR or for anything else; a record filter may also be MMTP.
  datatype Kind = TsRecord | TsPcr | TsOther | MmtpRecord | NonTs

  // `serial` tells filters apart that have had the same id.
  datatype Filter = Filter(kind: Kind, serial: nat)

  // `filters` maps an id to a null pointer once it has been looked up in vain. `used` are the ids that the
  // device has given out.
  datatype Registry = Registry(
    filters: map<nat, Option<Filter>>, playback: set<nat>, record: set<nat>,
    dvrPlayback: Option<map<nat, Option<Filter>>>, dvrRecord: bool, used: set<nat>)

  datatype Call =
    | OpenFilter(filter: Filter, hasCallback: bool, index: Option<nat>, mqCreated: bool)  // `index` from the device
    | FreeId(id: nat)          // the device part of closing a filter
    | RemoveFilter(id: nat)    // the demux part
    | AttachRecordFilter(id: nat)
    | DetachRecordFilter(id: nat)
    | OpenPlaybackDvr(hasCallback: bool, mqCreated: bool)
    | OpenRecordDvr(hasCallback: bool, mqCreated: bool)
    | CloseDemux

  predicate IsRecord(f: Filter) {
    f.kind.TsRecord? || f.kind.MmtpRecord?
  }

  predicate Live(r: Registry, id: nat) {
    id in r.filters && r.filters[id].Some?
  }

  // `mFilters[id]` of a map that may not have the id.
  function Lookup(filters: map<nat, Option<Filter>>, id: nat): map<nat, Option<Filter>> {
    if id in filters then filters else filters[id := None]
  }

  function Open(r: Registry, f: Filter, hasCallback: bool, id: Option<nat>, mqCreated: bool): (Registry, bool) {
    if !hasCallback || id.None? || id.value in r.used then (r, false)
    else
      var i := id.value;
      var r1 := r.(used := r.used + {i});
      if !mqCreated then (r1, false)
      else
        var r2 :=
          if f.kind.TsOther? then
            r1.(playback := r1.playback + {i},
                dvrPlayback := if r1.dvrPlayback.Some? then Some(r1.dvrPlayback.value[i := Some(f)]) else None)
          else r1;
        (r2.(filters := r2.filters[i := Some(f)]), true)
  }

  function Remove(r: Registry, id: nat): Registry {
    r.(filters := r.filters - {id}, playback := r.playback - {id}, record := r.record - {id},
       dvrPlayback := if r.dvrPlayback.Some? then Some(r.dvrPlayback.value - {id}) else None)
  }

  function Attach(r: Registry, id: nat): (Registry, bool) {
    var r1 := r.(filters := Lookup(r.filters, id));
    if r1.filters[id].None? || !r1.dvrRecord || !IsRecord(r1.filters[id].value) then (r1, false)
    else (r1.(record := r1.record + {id}), true)
  }

  function Detach(r: Registry, id: nat): (Registry, bool) {
    var r1 := r.(filters := Lookup(r.filters, id));
    if r1.filters[id].None? || !r1.dvrRecord then (r1, false) else (r1.(record := r1.record - {id}), true)
  }

  // The looked-up entries of all of `ids`.
  function LookupAll(filters: map<nat, Option<Filter>>, ids: set<nat>): map<nat, Option<Filter>> {
    map id | id in filters.Keys + ids :: if id in filters then filters[id] else None
  }

  // The DVR's copy of the entries of `ids`.
  function CopyAll(filters: map<nat, Option<Filter>>, ids: set<nat>): map<nat, Option<Filter>> {
    map id | id in ids :: if id in filters then filters[id] else None
  }

  function OpenPlayback(r: Registry, hasCallback: bool, mqCreated: bool): (Registry, bool) {
    if !hasCallback then (r, false)
    else if !mqCreated then (r.(dvrPlayback := None), false)
    else
      (r.(filters := LookupAll(r.filters, r.playback), dvrPlayback := Some(CopyAll(r.filters, r.playback))), true)
  }

  function OpenRecord(r: Registry, hasCallback: bool, mqCreated: bool): (Registry, bool) {
    if !hasCallback then (r, false) else (r.(dvrRecord := mqCreated), mqCreated)
  }

  function Closed(r: Registry): Registry {
    Registry(map[], {}, {}, None, false, r.used)
  }

  function Next(r: Registry, c: Call): Registry {
    match c
    case OpenFilter(f, hasCallback, id, mqCreated) => Open(r, f, hasCallback, id, mqCreated).0
    case FreeId(id) => r.(used := r.used - {id})
    case RemoveFilter(id) => Remove(r, id)
    case AttachRecordFilter(id) => Attach(r, id).0
    case DetachRecordFilter(id) => Detach(r, id).0
    case OpenPlaybackDvr(hasCallback, mqCreated) => OpenPlayback(r, hasCallback, mqCreated).0
    case OpenRecordDvr(hasCallback, mqCreated) => OpenRecord(r, hasCallback, mqCreated).0
    case CloseDemux => Closed(r)
  }

  function Run(r: Registry, calls: seq<Call>): Registry
    decreases |calls|
  {
    if calls == [] then r else Run(Next(r, calls[0]), calls[1..])
  }

  // ---------- what a call does to one id ----------

  // The filter under an id.
  function FilterAt(r: Registry, id: nat): Option<Filter> {
    if id in r.filters then r.filters[id] else None
  }

  // The call opens filter `f` under `id`.
  predicate Opens(r: Registry, c: Call, id: nat, f: Filter) {
    c == OpenFilter(f, true, Some(id), true) && id !in r.used
  }

  // The call looks `id` up: a missing entry becomes a null pointer.
  predicate LooksUp(r: Registry, c: Call, id: nat) {
    c == AttachRecordFilter(id) || c == DetachRecordFilter(id) || (c == OpenPlaybackDvr(true, true) && id in r.playback)
  }

  predicate Erases(c: Call, id: nat) {
    c == RemoveFilter(id) || c.CloseDemux?
  }

  lemma NextFilters(r: Registry, c: Call, id: nat)
    ensures FilterAt(Next(r, c), id) ==
            if Erases(c, id) then None
            else if c.OpenFilter? && Opens(r, c, id, c.filter) then Some(c.filter)
            else FilterAt(r, id)
    ensures id in Next(r, c).filters <==>
            !Erases(c, id) && (id in r.filters || LooksUp(r, c, id) || (c.OpenFilter? && Opens(r, c, id, c.filter)))
  {
  }

  lemma NextPlayback(r: Registry, c: Call, id: nat)
    ensures id in Next(r, c).playback <==>
            !Erases(c, id) &&
            (id in r.playback || (c.OpenFilter? && Opens(r, c, id, c.filter) && c.filter.kind.TsOther?))
  {
  }

  // The call makes `id` a record id, or takes it back.
  predicate Records(r: Registry, c: Call, id: nat) {
    c == AttachRecordFilter(id) && r.dvrRecord && FilterAt(r, id).Some? && IsRecord(FilterAt(r, id).value)
  }

  predicate Unrecords(r: Registry, c: Call, id: nat) {
    Erases(c, id) || (c == DetachRecordFilter(id) && r.dvrRecord && FilterAt(r, id).Some?)
  }

  lemma NextRecord(r: Registry, c: Call, id: nat)
    ensures id in Next(r, c).record <==> Records(r, c, id) || (id in r.record && !Unrecords(r, c, id))
  {
  }

  // The playback DVR, and the entry that it has for `id`.
  lemma NextDvrs(r: Registry, c: Call, id: nat)
    ensures var t := Next(r, c);
            && (t.dvrRecord <==>
                  if c.OpenRecordDvr? && c.hasCallback then c.mqCreated else r.dvrRecord && !c.CloseDemux?)
            && (t.dvrPlayback.Some? <==>
                  if c.OpenPlaybackDvr? && c.hasCallback then c.mqCreated
                  else r.dvrPlayback.Some? && !c.CloseDemux?)
            && (t.dvrPlayback.Some? && id in t.dvrPlayback.value ==>
                  t.dvrPlayback.value[id] ==
                    if c == OpenPlaybackDvr(true, true) then FilterAt(r, id)
                    else if c.OpenFilter? && Opens(r, c, id, c.filter) && c.filter.kind.TsOther? then Some(c.filter)
                    else if r.dvrPlayback.Some? && id in r.dvrPlayback.value then r.dvrPlayback.value[id]
                    else None)
            && (t.dvrPlayback.Some? ==>
                  (id in t.dvrPlayback.value <==>
                    if c == OpenPlaybackDvr(true, true) then id in r.playback
                    else if c.OpenFilter? && Opens(r, c, id, c.filter) && c.filter.kind.TsOther? then true
                    else r.dvrPlayback.Some? && id in r.dvrPlayback.value && !Erases(c, id)))
  {
  }

  // The ids in use at the device; closing the demux gives none back.
  lemma NextUsed(r: Registry, c: Call, id: nat)
    ensures id in Next(r, c).used <==>
            (id in r.used && c != FreeId(id)) || (c.OpenFilter? && c.hasCallback && c.index == Some(id))
  {
  }

  // What the calls return.
  lemma CallsSucceed(r: Registry, f: Filter, id: nat, hasCallback: bool, index: Option<nat>, mqCreated: bool)
    ensures Open(r, f, hasCallback, index, mqCreated).1 <==>
            hasCallback && mqCreated && index.Some? && index.value !in r.used
    ensures Attach(r, id).1 <==> Records(r, AttachRecordFilter(id), id)
    ensures Detach(r, id).1 <==> r.dvrRecord && FilterAt(r, id).Some?
    ensures OpenPlayback(r, hasCallback, mqCreated).1 <==> hasCallback && mqCreated
    ensures OpenRecord(r, hasCallback, mqCreated).1 <==> hasCallback && mqCreated
  {
  }

  lemma {:induction false} RunOneMore(r: Registry, calls: seq<Call>, c: Call)
    ensures Run(r, calls + [c]) == Next(Run(r, calls), c)
    decreases |calls|
  {
    if calls == [] {
      assert [] + [c] == [c] && [c][1..] == [];
      assert Run(r, [c]) == Run(Next(r, c), []);
    } else {
      assert (calls + [c])[1..] == calls[1..] + [c];
      RunOneMore(Next(r, calls[0]), calls[1..], c);
    }
  }

  // Call `j` of a run makes `id` a record id, and no later one takes it back.
  predicate RecordsAt(r: Registry, calls: seq<Call>, j: nat, id: nat)
    requires j < |calls|
  {
    Records(Run(r, calls[..j]), calls[j], id)
  }

  predicate UnrecordsAt(r: Registry, calls: seq<Call>, j: nat, id: nat)
    requires j < |calls|
  {
    Unrecords(Run(r, calls[..j]), calls[j], id)
  }

  predicate RecordedSince(r: Registry, calls: seq<Call>, id: nat) {
    exists j :: 0 <= j < |calls| && RecordsAt(r, calls, j, id) &&
      forall i :: j < i < |calls| ==> !UnrecordsAt(r, calls, i, id)
  }

  // Over every run, a record id is one that was attached, with a record DVR and as a record filter, and since
  // then neither detached nor removed.
  lemma {:induction false} RecordedExactly(r: Registry, calls: seq<Call>, id: nat)
    requires id !in r.record
    ensures id in Run(r, calls).record <==> RecordedSince(r, calls, id)
    decreases |calls|
  {
    if calls == [] {
    } else {
      var n, before := |calls| - 1, calls[..|calls| - 1];
      RecordedExactly(r, before, id);
      RunOneMore(r, before, calls[n]);
      NextRecord(Run(r, before), calls[n], id);
      assert before + [calls[n]] == calls;
      SinceOneMore(r, before, calls[n], id);
    }
  }

  lemma {:induction false} SinceOneMore(r: Registry, calls: seq<Call>, c: Call, id: nat)
    ensures RecordedSince(r, calls + [c], id) <==>
      Records(Run(r, calls), c, id) || (RecordedSince(r, calls, id) && !Unrecords(Run(r, calls), c, id))
  {
    var more := calls + [c];
    assert more[..|calls|] == calls;
    forall j | 0 <= j < |calls|
      ensures RecordsAt(r, more, j, id) <==> RecordsAt(r, calls, j, id)
      ensures UnrecordsAt(r, more, j, id) <==> UnrecordsAt(r, calls, j, id)
    {
      assert more[..j] == calls[..j];
    }
    assert RecordsAt(r, more, |calls|, id) <==> Records(Run(r, calls), c, id);
    assert UnrecordsAt(r, more, |calls|, id) <==> Unrecords(Run(r, calls), c, id);
    if RecordedSince(r, more, id) {
      var j :| 0 <= j < |more| && RecordsAt(r, more, j, id) &&
               forall i :: j < i < |more| ==> !UnrecordsAt(r, more, i, id);
      assert j < |calls| ==> !UnrecordsAt(r, more, |calls|, id);
      assert forall i :: j < i < |calls| ==> !UnrecordsAt(r, calls, i, id);
    }
  }

  // Once the demux is closed nothing is registered, in no part, though the device keeps its ids.
  lemma CloseClears(r: Registry, id: nat)
    ensures var t := Next(r, CloseDemux);
            && !Live(t, id) && id !in t.filters && id !in t.playback && id !in t.record
            && t.dvrPlayback.None? && !t.dvrRecord && (id in t.used <==> id in r.used)
  {
  }

  // And until a record DVR is opened again, no filter can be attached, and none is a record filter.
  lemma {:induction false} NothingRecordedAfterClose(r: Registry, calls: seq<Call>, id: nat, k: nat)
    requires forall i :: 0 <= i < |calls| ==> calls[i] != OpenRecordDvr(true, true)
    ensures var t := Run(Next(r, CloseDemux), calls);
            !t.dvrRecord && k !in t.record && !Attach(t, id).1
    decreases |calls|
  {
    CloseClears(r, k);
    if calls == [] {
    } else {
      var n, before := |calls| - 1, calls[..|calls| - 1];
      var t := Run(Next(r, CloseDemux), before);
      NothingRecordedAfterClose(r, before, id, k);
      RunOneMore(Next(r, CloseDemux), before, calls[n]);
      assert before + [calls[n]] == calls && calls[n] != OpenRecordDvr(true, true);
      NextRecord(t, calls[n], k);
      NextDvrs(t, calls[n], k);
    }
  }

  // ---------- agreement ----------

  // The playback ids are exactly the live TS filters that are neither for recording nor for PCR, the record
  // ids are live record filters, and an existing playback DVR holds exactly the playback filters.
  ghost predicate Agrees(r: Registry) {
    && (forall id :: id in r.playback <==> Live(r, id) && r.filters[id].value.kind.TsOther?)
    && (forall id :: id in r.record ==> Live(r, id) && IsRecord(r.filters[id].value))
    && (r.dvrPlayback.Some? ==>
          && r.dvrPlayback.value.Keys == r.playback
          && forall id :: id in r.playback ==> r.dvrPlayback.value[id] == r.filters[id])
  }

  lemma PlaybackAndRecordDisjoint(r: Registry)
    requires Agrees(r)
    ensures r.playback !! r.record
  {
  }

  // A filter that takes over a registered id can play the parts that the one before plays.
  predicate Replaceable(r: Registry, id: nat, f: Filter) {
    Live(r, id) ==>
      (r.filters[id].value.kind.TsOther? ==> f.kind.TsOther?) && (id in r.record ==> IsRecord(f))
  }

  predicate Allowed(r: Registry, c: Call) {
    match c
    case OpenFilter(f, hasCallback, id, mqCreated) =>
      hasCallback && id.Some? && id.value !in r.used && mqCreated ==> Replaceable(r, id.value, f)
    case _ => true
  }

  lemma OpenAgreesExactly(r: Registry, f: Filter, id: nat)
    requires Agrees(r) && id !in r.used
    ensures Agrees(Open(r, f, true, Some(id), true).0) <==> Replaceable(r, id, f)
  {
    var t := Open(r, f, true, Some(id), true).0;
    assert Live(t, id);
    assert forall k :: k != id ==> (Live(t, k) <==> Live(r, k)) && (Live(r, k) ==> t.filters[k] == r.filters[k]);
    if Replaceable(r, id, f) {
      assert f.kind.TsOther? || id !in r.playback;
    } else if Live(r, id) && r.filters[id].value.kind.TsOther? && !f.kind.TsOther? {
      assert id in t.playback;
    } else {
      assert id in t.record;
    }
  }

  lemma LookupAgrees(r: Registry, id: nat)
    requires Agrees(r)
    ensures Agrees(r.(filters := Lookup(r.filters, id)))
  {
  }

  lemma RemoveAgrees(r: Registry, id: nat)
    requires Agrees(r)
    ensures var t := Remove(r, id);
            && Agrees(t) && id !in t.filters && id !in t.playback && id !in t.record
            && (t.dvrPlayback.Some? ==> id !in t.dvrPlayback.value)
  {
  }

  lemma OpenPlaybackAgrees(r: Registry, hasCallback: bool, mqCreated: bool)
    requires Agrees(r)
    ensures Agrees(OpenPlayback(r, hasCallback, mqCreated).0)
  {
  }

  // Exactly the allowed calls keep the agreement.
  lemma NextAgreesExactly(r: Registry, c: Call)
    requires Agrees(r)
    ensures Agrees(Next(r, c)) <==> Allowed(r, c)
  {
    match c
    case OpenFilter(f, hasCallback, id, mqCreated) =>
      if hasCallback && id.Some? && id.value !in r.used {
        if mqCreated {
          OpenAgreesExactly(r, f, id.value);
        } else {
          assert forall k :: Live(Next(r, c), k) <==> Live(r, k);
        }
      }
    case FreeId(id) => assert forall k :: Live(Next(r, c), k) <==> Live(r, k);
    case RemoveFilter(id) => RemoveAgrees(r, id);
    case AttachRecordFilter(id) =>
      LookupAgrees(r, id);
      assert forall k :: Live(Next(r, c), k) <==> Live(r.(filters := Lookup(r.filters, id)), k);
    case DetachRecordFilter(id) =>
      LookupAgrees(r, id);
      assert forall k :: Live(Next(r, c), k) <==> Live(r.(filters := Lookup(r.filters, id)), k);
    case OpenPlaybackDvr(hasCallback, mqCreated) => OpenPlaybackAgrees(r, hasCallback, mqCreated);
    case OpenRecordDvr(_, _) => assert forall k :: Live(Next(r, c), k) <==> Live(r, k);
    case CloseDemux =>
  }

  predicate AllAllowed(r: Registry, calls: seq<Call>)
    decreases |calls|
  {
    calls == [] || (Allowed(r, calls[0]) && AllAllowed(Next(r, calls[0]), calls[1..]))
  }

  lemma {:induction false} RunAgrees(r: Registry, calls: seq<Call>)
    requires Agrees(r) && AllAllowed(r, calls)
    ensures Agrees(Run(r, calls)) && Run(r, calls).playback !! Run(r, calls).record
    decreases |calls|
  {
    if calls == [] {
      PlaybackAndRecordDisjoint(r);
    } else {
      NextAgreesExactly(r, calls[0]);
      RunAgrees(Next(r, calls[0]), calls[1..]);
    }
  }

  // ---------- when closing a filter is one step ----------

  // The ids of live filters are in use at the device.
  ghost predicate Backed(r: Registry) {
    forall id :: Live(r, id) ==> id in r.used
  }

  // An id is only given back at the device when its filter has left the registry.
  predicate Orderly(r: Registry, c: Call) {
    c.FreeId? ==> !Live(r, c.id)
  }

  predicate AllOrderly(r: Registry, calls: seq<Call>)
    decreases |calls|
  {
    calls == [] || (Orderly(r, calls[0]) && AllOrderly(Next(r, calls[0]), calls[1..]))
  }

  // Then every run is allowed, so the registry agrees throughout.
  lemma {:induction false} OrderlyRunAgrees(r: Registry, calls: seq<Call>)
    requires Agrees(r) && Backed(r) && AllOrderly(r, calls)
    ensures AllAllowed(r, calls) && Agrees(Run(r, calls)) && Backed(Run(r, calls))
    decreases |calls|
  {
    if calls == [] {
    } else {
      NextAgreesExactly(r, calls[0]);
      NextBacked(r, calls[0]);
      OrderlyRunAgrees(Next(r, calls[0]), calls[1..]);
    }
  }

  lemma NextBacked(r: Registry, c: Call)
    requires Backed(r) && Orderly(r, c)
    ensures Backed(Next(r, c))
  {
  }

  // But a filter's `close` frees the id at the device first. A record filter opened before the demux part
  // follows gets the same id: attached, it is a playback and a record filter at once, and the delayed removal
  // then unregisters it while the device still has its id in use.
  lemma CloseRace(r: Registry, id: nat, f: Filter)
    requires Agrees(r) && Backed(r) && id in r.playback && f.kind.TsRecord? && r.dvrRecord
    ensures var reused := Next(Next(Next(r, FreeId(id)), OpenFilter(f, true, Some(id), true)), AttachRecordFilter(id));
            && id in reused.playback && id in reused.record && reused.filters[id] == Some(f)
            && !Live(Next(reused, RemoveFilter(id)), id) && id in Next(reused, RemoveFilter(id)).used
  {
  }

  // ---------- the demux ----------

  class Demux {
    var filters: map<nat, Option<Filter>>
    var playbackFilterIds: set<nat>
    var recordFilterIds: set<nat>
    var dvrPlayback: Option<map<nat, Option<Filter>>>
    var dvrRecord: bool
    var used: set<nat>

    ghost function R(): Registry
      reads this
    {
      Registry(filters, playbackFilterIds, recordFilterIds, dvrPlayback, dvrRecord, used)
    }

    constructor ()
      ensures R() == Registry(map[], {}, {}, None, false, {}) && Agrees(R()) && Backed(R())
    {
      filters, playbackFilterIds, recordFilterIds, dvrPlayback, dvrRecord, used := map[], {}, {}, None, false, {};
    }

    method OpenFilter(filter: Filter, hasCallback: bool, dmxFilterIdx: Option<nat>, mqCreated: bool) returns (ok: bool)
      modifies this
      ensures (R(), ok) == Open(old(R()), filter, hasCallback, dmxFilterIdx, mqCreated)
    {
      if !hasCallback {
        return false;
      }
      if dmxFilterIdx.None? || dmxFilterIdx.value in used {
        return false;
      }
      var filterId := dmxFilterIdx.value;
      used := used + {filterId};
      if !mqCreated {
        return false;
      }
      if filter.kind.TsOther? {
        playbackFilterIds := playbackFilterIds + {filterId};
        if dvrPlayback.Some? {
          dvrPlayback := Some(dvrPlayback.value[filterId := Some(filter)]);
        }
      }
      filters := filters[filterId := Some(filter)];
      return true;
    }

    method RemoveFilter(id: nat)
      modifies this
      ensures R() == Remove(old(R()), id)
    {
      filters := Lookup(filters, id);
      filters := filters - {id};
      assert filters == old(filters) - {id};
      playbackFilterIds := playbackFilterIds - {id};
      recordFilterIds := recordFilterIds - {id};
      if dvrPlayback.Some? {
        dvrPlayback := Some(dvrPlayback.value - {id});
      }
    }

    method AttachRecordFilter(id: nat) returns (ok: bool)
      modifies this
      ensures (R(), ok) == Attach(old(R()), id)
    {
      filters := Lookup(filters, id);
      if filters[id].None? || !dvrRecord || !IsRecord(filters[id].value) {
        return false;
      }
      recordFilterIds := recordFilterIds + {id};
      return true;
    }

    method DetachRecordFilter(id: nat) returns (ok: bool)
      modifies this
      ensures (R(), ok) == Detach(old(R()), id)
    {
      filters := Lookup(filters, id);
      if filters[id].None? || !dvrRecord {
        return false;
      }
      recordFilterIds := recordFilterIds - {id};
      return true;
    }

    // The playback case of `openDvr`, with its loop over the playback ids.
    method OpenPlaybackDvr(hasCallback: bool, mqCreated: bool) returns (ok: bool)
      modifies this
      ensures (R(), ok) == OpenPlayback(old(R()), hasCallback, mqCreated)
    {
      if !hasCallback {
        return false;
      }
      if !mqCreated {
        dvrPlayback := None;
        return false;
      }
      var added: map<nat, Option<Filter>> := map[];
      var rest := playbackFilterIds;
      while rest != {}
        invariant rest <= playbackFilterIds && playbackFilterIds == old(playbackFilterIds)
        invariant recordFilterIds == old(recordFilterIds) && dvrRecord == old(dvrRecord) && used == old(used)
        invariant filters == LookupAll(old(filters), playbackFilterIds - rest)
        invariant added == CopyAll(old(filters), playbackFilterIds - rest)
        decreases rest
      {
        var id := Least(rest);
        filters := Lookup(filters, id);
        added := added[id := filters[id]];
        rest := rest - {id};
      }
      assert playbackFilterIds - rest == playbackFilterIds;
      dvrPlayback := Some(added);
      return true;
    }

    method OpenRecordDvr(hasCallback: bool, mqCreated: bool) returns (ok: bool)
      modifies this
      ensures (R(), ok) == OpenRecord(old(R()), hasCallback, mqCreated)
    {
      if !hasCallback {
        return false;
      }
      dvrRecord := mqCreated;
      return mqCreated;
    }

    // The loop takes every playback filter from the DVR before the sets are cleared.
    method Close()
      modifies this
      ensures R() == Closed(old(R()))
    {
      if dvrPlayback.Some? {
        var rest := playbackFilterIds;
        while rest != {}
          invariant dvrPlayback.Some? && used == old(used)
          decreases rest
        {
          var id := Least(rest);
          dvrPlayback := Some(dvrPlayback.value - {id});
          rest := rest - {id};
        }
      }
      playbackFilterIds, recordFilterIds, filters := {}, {}, map[];
      dvrPlayback, dvrRecord := None, false;
    }
  }
}
