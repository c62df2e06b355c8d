/**
 The two id allocators of the tuner: a ring over descrambler ids that starts behind the last one used, and
 the least free internal demux id.
 */
module Tuner {

  // `mLastUsedDescramblerId` when no descrambler is open: -1 in an unsigned 32-bit field.
  const NONE: nat := 0xFFFF_FFFF

  // ---------- descrambler ids ----------

  // The open descramblers and the id last given out; ids are below NUMDSC, which is 16.
  datatype Ring = Ring(open: set<nat>, last: nat)

  predicate ValidRing(r: Ring) {
    && (forall id :: id in r.open ==> id < 16)
    && (r.last == NONE <==> r.open == {})
    && (r.last != NONE ==> r.last < 16)
  }

  // The id `d` places after the last one used.
  function After(last: nat, d: nat): (id: nat)
    ensures id < 16
  {
    (last + d) % 16
  }

  lemma AfterStep(last: nat, d: nat)
    requires last < 16 && 1 <= d <= 16
    ensures After(last, d) == last <==> d == 16
    ensures After(last, d + 1) == if After(last, d) == 15 then 0 else After(last, d) + 1
    ensures After(last, 1) == if last == 15 then 0 else last + 1
  {
  }

  // The first free id found from place `d` on, or 0 when all sixteen places have been passed.
  function FirstFree(r: Ring, d: nat): nat
    decreases 17 - d
  {
    if d > 16 then 0
    else if After(r.last, d) !in r.open then After(r.last, d)
    else FirstFree(r, d + 1)
  }

  function NextId(r: Ring): nat {
    if r.last == NONE then 0 else FirstFree(r, 1)
  }

  function Opened(r: Ring): Ring {
    Ring(r.open + {NextId(r)}, NextId(r))
  }

  function Removed(r: Ring, id: nat): Ring {
    Ring(r.open - {id}, if r.open - {id} == {} then NONE else r.last)
  }

  // `id` is free, and cyclically after the last used one no free id comes before it.
  ghost predicate FirstAfter(r: Ring, id: nat) {
    exists d :: 1 <= d <= 16 && id == After(r.last, d) && id !in r.open &&
      forall e :: 1 <= e < d ==> After(r.last, e) in r.open
  }

  lemma {:induction false} FirstFreeFrom(r: Ring, d: nat)
    requires 1 <= d <= 17 && forall e :: 1 <= e < d ==> After(r.last, e) in r.open
    ensures var id := FirstFree(r, d);
            || (FirstAfter(r, id) && id < 16)
            || (id == 0 && forall e :: 1 <= e <= 16 ==> After(r.last, e) in r.open)
    decreases 17 - d
  {
    if d > 16 {
    } else {
      if After(r.last, d) in r.open {
        FirstFreeFrom(r, d + 1);
      } else {
        assert FirstAfter(r, After(r.last, d));
      }
    }
  }

  lemma EveryIdHasAPlace(last: nat, id: nat)
    requires id < 16
    ensures exists d :: 1 <= d <= 16 && After(last, d) == id
  {
    var k := (id + 16 - last % 16) % 16;
    var d := if k == 0 then 16 else k;
    assert After(last, d) == id;
  }

  // In a reachable state the id given out is the first free one cyclically after the last used if there is
  // a free one, and 0 otherwise; so a live descrambler is replaced only when all sixteen are open.
  lemma NextIdIsFirstFree(r: Ring)
    requires ValidRing(r)
    ensures NextId(r) < 16
    ensures r.open == {} ==> NextId(r) == 0
    ensures r.open != {} && (exists id :: 0 <= id < 16 && id !in r.open) ==> FirstAfter(r, NextId(r))
    ensures (forall id :: 0 <= id < 16 ==> id in r.open) ==> NextId(r) == 0
    ensures NextId(r) in r.open <==> forall id :: 0 <= id < 16 ==> id in r.open
  {
    if r.open != {} {
      FirstFreeFrom(r, 1);
      if exists id :: 0 <= id < 16 && id !in r.open {
        var id :| 0 <= id < 16 && id !in r.open;
        EveryIdHasAPlace(r.last, id);
      }
    }
  }

  datatype Call = Open | Remove(id: nat)

  function Step(r: Ring, c: Call): Ring {
    match c
    case Open => Opened(r)
    case Remove(id) => Removed(r, id)
  }

  function Run(r: Ring, calls: seq<Call>): Ring
    decreases |calls|
  {
    if calls == [] then r else Run(Step(r, calls[0]), calls[1..])
  }

  // In every run the last-used id is -1 exactly when nothing is open, and every id is below 16.
  lemma {:induction false} RingReachable(r: Ring, calls: seq<Call>)
    requires ValidRing(r)
    ensures ValidRing(Run(r, calls))
    ensures Run(r, calls).last == 0xFFFF_FFFF <==> Run(r, calls).open == {}
    ensures forall id :: id in Run(r, calls).open ==> id < 16
    decreases |calls|
  {
    if calls == [] {
    } else {
      NextIdIsFirstFree(r);
      assert NextId(r) in Opened(r).open;
      RingReachable(Step(r, calls[0]), calls[1..]);
    }
  }

  lemma {:induction false} RunOneMore(r: Ring, calls: seq<Call>, c: Call)
    ensures Run(r, calls + [c]) == Step(Run(r, calls), c)
    decreases |calls|
  {
    if calls == [] {
      assert [] + [c] == [c] && [c][1..] == [];
      assert Run(r, [c]) == Run(Step(r, c), []);
    } else {
      assert (calls + [c])[1..] == calls[1..] + [c];
      RunOneMore(Step(r, calls[0]), calls[1..], c);
    }
  }

  // Call `j` of a run from the start opens a descrambler, under this id.
  predicate GivesAt(calls: seq<Call>, j: nat, id: nat)
    requires j < |calls|
  {
    calls[j].Open? && id == NextId(Run(Ring({}, NONE), calls[..j]))
  }

  // The id was given out, and not removed since.
  predicate OpenSince(calls: seq<Call>, id: nat) {
    exists j :: 0 <= j < |calls| && GivesAt(calls, j, id) && forall i :: j < i < |calls| ==> calls[i] != Remove(id)
  }

  // It is the last that was given out.
  predicate LastGiven(calls: seq<Call>, id: nat) {
    exists j :: 0 <= j < |calls| && GivesAt(calls, j, id) && forall i :: j < i < |calls| ==> !calls[i].Open?
  }

  // In every run from the start, exactly the ids given out and not removed since are open, and while any is, the
  // last-used id is the one given out last, whether that one is still open or not.
  lemma {:induction false} RingHistory(calls: seq<Call>, id: nat)
    ensures var r := Run(Ring({}, NONE), calls);
            && (id in r.open <==> OpenSince(calls, id))
            && (r.open != {} ==> LastGiven(calls, r.last)) && (r.open == {} ==> r.last == NONE)
    decreases |calls|
  {
    if calls == [] {
    } else {
      var start := Ring({}, NONE);
      var n, before := |calls| - 1, calls[..|calls| - 1];
      var s := Run(start, before);
      RingHistory(before, id);
      RunOneMore(start, before, calls[n]);
      RingReachable(start, before);
      assert before + [calls[n]] == calls;
      SinceOneMore(before, calls[n], id);
      LastOneMore(before, calls[n], Run(start, calls).last);
      assert calls[n].Open? ==> NextId(s) in Run(start, calls).open;
    }
  }

  lemma {:induction false} SinceOneMore(calls: seq<Call>, c: Call, id: nat)
    ensures OpenSince(calls + [c], id) <==>
      (c.Open? && id == NextId(Run(Ring({}, NONE), calls))) || (OpenSince(calls, id) && c != Remove(id))
  {
    var more := calls + [c];
    assert more[..|calls|] == calls && more[|calls|] == c;
    forall j | 0 <= j < |calls| ensures GivesAt(more, j, id) <==> GivesAt(calls, j, id) && more[j] == calls[j] {
      assert more[..j] == calls[..j];
    }
    assert GivesAt(more, |calls|, id) <==> c.Open? && id == NextId(Run(Ring({}, NONE), calls));
    if OpenSince(more, id) {
      var j :| 0 <= j < |more| && GivesAt(more, j, id) && forall i :: j < i < |more| ==> more[i] != Remove(id);
      if j < |calls| {
        forall i | j < i < |calls| ensures calls[i] != Remove(id) {
          assert more[i] == calls[i];
        }
        assert more[|calls|] != Remove(id);
      }
    }
  }

  lemma {:induction false} LastOneMore(calls: seq<Call>, c: Call, id: nat)
    ensures LastGiven(calls + [c], id) <==>
      if c.Open? then id == NextId(Run(Ring({}, NONE), calls)) else LastGiven(calls, id)
  {
    var more := calls + [c];
    assert more[..|calls|] == calls && more[|calls|] == c;
    forall j | 0 <= j < |calls| ensures GivesAt(more, j, id) <==> GivesAt(calls, j, id) && more[j] == calls[j] {
      assert more[..j] == calls[..j];
    }
    assert GivesAt(more, |calls|, id) <==> c.Open? && id == NextId(Run(Ring({}, NONE), calls));
    if LastGiven(more, id) {
      var j :| 0 <= j < |more| && GivesAt(more, j, id) && forall i :: j < i < |more| ==> !more[i].Open?;
      if j < |calls| {
        forall i | j < i < |calls| ensures !calls[i].Open? {
          assert more[i] == calls[i];
        }
        assert !more[|calls|].Open?;
      }
    }
  }

  // Without the invariant the search would not end: with every id taken and the last-used id at -1, the
  // candidate after any number of steps is taken and never the one at which the search gives up.
  lemma {:induction false} SearchNeedsInvariant(r: Ring, steps: nat)
    requires r.last == NONE && forall id :: 0 <= id < 16 ==> id in r.open
    ensures !ValidRing(r) && Candidate(steps) == steps % 16 && Candidate(steps) in r.open
    ensures Candidate(steps) + 1 != (r.last + 1) % 0x1_0000_0000
  {
    assert 0 in r.open;
    CandidateSmall(steps);
  }

  // The candidate of `openDescrambler` after some steps from -1.
  function Candidate(steps: nat): nat {
    if steps == 0 then 0 else if Candidate(steps - 1) + 1 == 16 then 0 else Candidate(steps - 1) + 1
  }

  lemma {:induction false} CandidateSmall(steps: nat)
    ensures Candidate(steps) == steps % 16
  {
    if steps == 0 {
    } else {
      CandidateSmall(steps - 1);
    }
  }

  // ---------- internal demux ids ----------

  // Internal ids start at NUMDEMUX, which is 4.
  predicate LeastFree(ids: seq<nat>, id: nat) {
    id >= 4 && id !in ids && forall k :: 4 <= k < id ==> k in ids
  }

  predicate Distinct(ids: seq<nat>) {
    forall i, j :: 0 <= i < j < |ids| ==> ids[i] != ids[j]
  }

  function Without(ids: seq<nat>, id: nat): seq<nat> {
    if ids == [] then []
    else (if ids[0] == id then [] else [ids[0]]) + Without(ids[1..], id)
  }

  // A list of n ids cannot hold more than n consecutive ones.
  lemma {:induction false} Pigeonhole(ids: seq<nat>, hi: nat)
    requires hi >= 4 && forall k :: 4 <= k < hi ==> k in ids
    ensures hi - 4 <= |ids|
    decreases hi
  {
    if hi == 4 {
    } else {
      assert hi - 1 in ids;
      var rest := Without(ids, hi - 1);
      forall k | 4 <= k < hi - 1 ensures k in rest {
        WithoutHolds(ids, hi - 1, k);
      }
      WithoutShorter(ids, hi - 1);
      Pigeonhole(rest, hi - 1);
    }
  }

  lemma {:induction false} WithoutHolds(ids: seq<nat>, id: nat, k: nat)
    ensures k in Without(ids, id) <==> k in ids && k != id
  {
    if ids == [] {
    } else {
      WithoutHolds(ids[1..], id, k);
      assert k in ids <==> k == ids[0] || k in ids[1..];
    }
  }

  lemma {:induction false} WithoutShorter(ids: seq<nat>, id: nat)
    ensures |Without(ids, id)| <= |ids| && (id in ids ==> |Without(ids, id)| < |ids|)
  {
    if ids == [] {
    } else {
      WithoutShorter(ids[1..], id);
      assert id in ids <==> id == ids[0] || id in ids[1..];
    }
  }

  lemma {:induction false} WithoutAbsent(ids: seq<nat>, id: nat)
    requires id !in ids
    ensures Without(ids, id) == ids
  {
    if ids == [] {
    } else {
      assert ids[0] in ids && forall k :: k in ids[1..] ==> k in ids;
      WithoutAbsent(ids[1..], id);
    }
  }

  lemma {:induction false} WithoutAppend(a: seq<nat>, b: seq<nat>, id: nat)
    ensures Without(a + b, id) == Without(a, id) + Without(b, id)
  {
    if a == [] {
      assert a + b == b;
    } else {
      assert (a + b)[1..] == a[1..] + b;
      WithoutAppend(a[1..], b, id);
    }
  }

  // Removing the id just allocated gives back the list.
  lemma {:induction false} AllocateThenRemove(ids: seq<nat>, id: nat)
    requires LeastFree(ids, id)
    ensures Without(ids + [id], id) == ids
  {
    WithoutAppend(ids, [id], id);
    WithoutAbsent(ids, id);
  }

  lemma {:induction false} WithoutDistinct(ids: seq<nat>, id: nat)
    requires Distinct(ids)
    ensures Distinct(Without(ids, id))
  {
    if ids == [] {
    } else {
      WithoutDistinct(ids[1..], id);
      if ids[0] != id {
        WithoutHolds(ids[1..], id, ids[0]);
        assert ids[0] !in ids[1..];
        var rest := Without(ids[1..], id);
        assert forall j :: 0 <= j < |rest| ==> rest[j] in rest;
      }
    }
  }

  // From one list to the next by allocating `id` or removing it.
  predicate IdsStep(ids: seq<nat>, ids': seq<nat>, id: nat) {
    (LeastFree(ids, id) && ids' == ids + [id]) || ids' == Without(ids, id)
  }

  // Over every run the list stays free of duplicates.
  lemma {:induction false} IdsStayDistinct(run: seq<seq<nat>>, picks: seq<nat>)
    requires |run| == |picks| + 1 && Distinct(run[0])
    requires forall i :: 0 <= i < |picks| ==> IdsStep(run[i], run[i + 1], picks[i])
    ensures Distinct(run[|picks|])
    decreases |picks|
  {
    if picks == [] {
    } else {
      var n := |picks| - 1;
      IdsStayDistinct(run[..n + 1], picks[..n]);
      assert IdsStep(run[n], run[n + 1], picks[n]);
      WithoutDistinct(run[n], picks[n]);
    }
  }

  // ---------- the tuner ----------

  class Tuner {
    var descramblers: map<nat, object>
    var lastUsedDescramblerId: nat
    var interDmxIdManager: seq<nat>

    ghost function R(): Ring
      reads this
    {
      Ring(descramblers.Keys, lastUsedDescramblerId)
    }

    constructor ()
      ensures R() == Ring({}, NONE) && ValidRing(R()) && interDmxIdManager == []
    {
      descramblers, lastUsedDescramblerId, interDmxIdManager := map[], NONE, [];
    }

    // `probes` counts the ids looked up.
    method OpenDescrambler(descrambler: object) returns (id: nat, probes: nat)
      requires ValidRing(R())
      modifies this`descramblers, this`lastUsedDescramblerId
      ensures R() == Opened(old(R())) && id == NextId(old(R())) && ValidRing(R())
      ensures descramblers == old(descramblers)[id := descrambler]
      ensures 1 <= probes <= 16
    {
      ghost var r := R();
      var next := (lastUsedDescramblerId + 1) % 0x1_0000_0000;
      assert next == if r.last == NONE then 0 else r.last + 1;
      id := next;
      if id == 16 {
        id := 0;
      }
      probes := 1;
      if r.last != NONE {
        AfterStep(r.last, 1);
      }
      while id in descramblers
        invariant 1 <= probes <= 16 && lastUsedDescramblerId == r.last && descramblers == old(descramblers)
        invariant r.last == NONE ==> id == 0
        invariant r.last != NONE ==> id == After(r.last, probes) && FirstFree(r, probes) == NextId(r)
        decreases 16 - probes
      {
        assert r.last != NONE;
        AfterStep(r.last, probes);
        id := id + 1;
        if id == next {
          if id != 0 {
            id := 0;
          }
          break;
        }
        if id == 16 {
          id := 0;
        }
        probes := probes + 1;
      }
      NextIdIsFirstFree(r);
      descramblers := descramblers[id := descrambler];
      lastUsedDescramblerId := id;
    }

    method RemoveDescrambler(id: nat)
      requires ValidRing(R())
      modifies this`descramblers, this`lastUsedDescramblerId
      ensures R() == Removed(old(R()), id) && ValidRing(R()) && descramblers == old(descramblers) - {id}
    {
      descramblers := descramblers - {id};
      if |descramblers| == 0 {
        lastUsedDescramblerId := NONE;
      }
    }

    method AllocateDemuxResource() returns (id: nat)
      modifies this`interDmxIdManager
      ensures id >= 4 && id !in old(interDmxIdManager) && (forall k :: 4 <= k < id ==> k in old(interDmxIdManager))
      ensures LeastFree(old(interDmxIdManager), id) && interDmxIdManager == old(interDmxIdManager) + [id]
      ensures id <= 4 + |old(interDmxIdManager)|
    {
      id := 4;
      Pigeonhole(interDmxIdManager, id);
      while id in interDmxIdManager
        invariant id >= 4 && (forall k :: 4 <= k < id ==> k in interDmxIdManager)
        invariant id - 4 <= |interDmxIdManager| && interDmxIdManager == old(interDmxIdManager)
        decreases |interDmxIdManager| + 4 - id
      {
        Pigeonhole(interDmxIdManager, id + 1);
        id := id + 1;
      }
      interDmxIdManager := interDmxIdManager + [id];
    }

    method RemoveDemuxResource(id: nat)
      modifies this`interDmxIdManager
      ensures interDmxIdManager == Without(old(interDmxIdManager), id)
    {
      var i := 0;
      while i < |interDmxIdManager|
        invariant 0 <= i <= |interDmxIdManager|
        invariant interDmxIdManager[..i] + Without(interDmxIdManager[i..], id) == Without(old(interDmxIdManager), id)
        decreases |interDmxIdManager| - i
      {
        var ids := interDmxIdManager;
        assert ids[i..][0] == ids[i] && ids[i..][1..] == ids[i + 1..];
        if id == ids[i] {
          interDmxIdManager := ids[..i] + ids[i + 1..];
          assert interDmxIdManager[..i] == ids[..i] && interDmxIdManager[i..] == ids[i + 1..];
        } else {
          assert ids[..i + 1] == ids[..i] + [ids[i]];
          assert ids[..i] + ([ids[i]] + Without(ids[i + 1..], id)) == ids[..i + 1] + Without(ids[i + 1..], id);
          i := i + 1;
        }
      }
      assert interDmxIdManager[i..] == [] && interDmxIdManager[..i] == interDmxIdManager;
    }
  }
}
