/**
 The descrambler of HAL 1.0: a set of pids, the channel table and a ready flag, changed by calls under
 one lock and by the poll that waits for the session's key slots.
 */
module DescramblerV10 {
  import opened ChannelTable

  datatype State = State(t: Table, m: Mode, ready: bool, dsmFd: int)

  datatype Poll = SlotsPending | Answered(reply: SlotReply)
  datatype Event = AddPid(pid: nat) | RemovePid(pid: nat) | Ready(poll: Poll) | Close

  // `addPid`: the pid is recorded even when its channels cannot be set up.
  function Add(s: State, pid: nat, driver: Driver): (State, bool) {
    var t := s.t.(added := s.t.added + {pid});
    if s.ready then
      var (t', ok) := AddChannel(t, pid, s.m, driver);
      (s.(t := t'), ok)
    else (s.(t := t), true)
  }

  function Remove(s: State, pid: nat): State {
    var t := Drop(s.t, KeysOf({pid}, s.m.nsk));
    s.(t := t.(added := t.added - {pid}))
  }

  // `isDescramblerReady`: a failed slot query leaves the slot list as it was.
  function CheckReady(s: State, poll: Poll, driver: Driver): (State, bool) {
    if s.ready || s.dsmFd < 0 || poll.SlotsPending? then (s, s.ready)
    else
      var (m, complete) := ReadMode(s.m, poll.reply, s.m.slots);
      if !complete then (s.(m := m), false)
      else
        var (t, ok) := Fill(s.t, m, driver);
        (s.(t := t, m := m, ready := ok), ok)
  }

  // `close` leaves the ready flag set.
  function DoClose(s: State): State {
    s.(t := Clear(s.t, s.m.nsk), m := s.m.(nsk := false), dsmFd := if s.dsmFd >= 0 then -1 else s.dsmFd)
  }

  // One step and what it returns.
  function Step(s: State, e: Event, driver: Driver): (State, bool) {
    match e
    case AddPid(pid) => Add(s, pid, driver)
    case RemovePid(pid) => (Remove(s, pid), true)
    case Ready(poll) => CheckReady(s, poll, driver)
    case Close => (DoClose(s), true)
  }

  function Run(s: State, events: seq<Event>, driver: Driver): State
    decreases |events|
  {
    if events == [] then s else Run(Step(s, events[0], driver).0, events[1..], driver)
  }

  predicate Legal(e: Event) {
    match e
    case AddPid(pid) => IsPid(pid)
    case RemovePid(pid) => IsPid(pid)
    case _ => true
  }

  // ---------- conservation ----------

  predicate Good(s: State) {
    && Sound(s.t) && PidsOk(s.t)
    && s.t.chans.Keys <= KeysOf(s.t.added, s.m.nsk)
    && (!s.ready ==> s.t.chans == map[])
  }

  // The step sets up channels in common mode.
  predicate BindsCommon(s: State, e: Event) {
    match e
    case AddPid(pid) => s.ready && !s.m.nsk
    case Ready(Answered(reply)) => !s.ready && s.dsmFd >= 0 && !ReadMode(s.m, reply, s.m.slots).0.nsk
    case _ => false
  }

  lemma AddKeeps(s: State, pid: nat, driver: Driver)
    requires Good(s) && IsPid(pid)
    ensures Good(Add(s, pid, driver).0)
    ensures s.m.nsk || !s.ready ==> Add(s, pid, driver).0.t.orphans == s.t.orphans
  {
    var t := s.t.(added := s.t.added + {pid});
    KeysGrow(s.t.added, t.added, s.m.nsk);
    assert Sound(t) && PidsOk(t);
    if s.ready {
      AddSound(t, pid, s.m, driver);
    }
  }

  lemma RemoveKeeps(s: State, pid: nat)
    requires Good(s) && IsPid(pid)
    ensures Good(Remove(s, pid)) && Remove(s, pid).t.orphans == s.t.orphans
  {
    RemoveSound(s.t, pid, s.m.nsk);
    if !s.ready {
      assert Remove(s, pid).t.chans.Keys == {};
    }
  }

  lemma ReadyKeeps(s: State, poll: Poll, driver: Driver)
    requires Good(s)
    ensures var (s', ok) := CheckReady(s, poll, driver);
            && Good(s') && s'.ready == ok
            && (!BindsCommon(s, Ready(poll)) ==> s'.t.orphans == s.t.orphans)
  {
    if !s.ready && s.dsmFd >= 0 && poll.Answered? {
      var (m, complete) := ReadMode(s.m, poll.reply, s.m.slots);
      if complete {
        FillSound(s.t, m, driver);
      }
    }
  }

  // What every step keeps.
  lemma StepKeeps(s: State, e: Event, driver: Driver)
    requires Good(s) && Legal(e)
    ensures Good(Step(s, e, driver).0)
    ensures !BindsCommon(s, e) ==> Step(s, e, driver).0.t.orphans == s.t.orphans
  {
    match e
    case AddPid(pid) => AddKeeps(s, pid, driver);
    case RemovePid(pid) => RemoveKeeps(s, pid);
    case Ready(poll) => ReadyKeeps(s, poll, driver);
    case Close => ClearEmpties(s.t, s.m.nsk);
  }

  predicate AllLegal(events: seq<Event>) {
    forall i :: 0 <= i < |events| ==> Legal(events[i])
  }

  predicate NeverBindsCommon(s: State, events: seq<Event>, driver: Driver)
    decreases |events|
  {
    events == [] ||
    (!BindsCommon(s, events[0]) && NeverBindsCommon(Step(s, events[0], driver).0, events[1..], driver))
  }

  // In every run the live channels are those of the table and the ones whose keys could not be bound;
  // in a run that only works in NSK mode they are exactly those of the table.
  lemma {:induction false} Conservation(s: State, events: seq<Event>, driver: Driver)
    requires Good(s) && AllLegal(events)
    ensures var last := Run(s, events, driver);
            && Good(last) && last.t.ca.live.Keys == last.t.chans.Values + last.t.orphans
            && (NeverBindsCommon(s, events, driver) && s.t.orphans == {} ==> last.t.ca.live.Keys == last.t.chans.Values)
    decreases |events|
  {
    if events == [] {
    } else {
      StepKeeps(s, events[0], driver);
      Conservation(Step(s, events[0], driver).0, events[1..], driver);
    }
  }

  // A run that ends in `close` leaves no channel behind but those.
  lemma {:induction false} CloseFreesAll(s: State, events: seq<Event>, driver: Driver)
    requires Good(s) && AllLegal(events)
    ensures var last := DoClose(Run(s, events, driver));
            && last.t.chans == map[] && last.t.ca.live.Keys == last.t.orphans
            && (NeverBindsCommon(s, events, driver) && s.t.orphans == {} ==> last.t.ca.live == map[])
  {
    Conservation(s, events, driver);
    var before := Run(s, events, driver);
    ClearEmpties(before.t, before.m.nsk);
    if before.t.orphans == {} {
      assert DoClose(before).t.ca.live.Keys == {};
    }
    if NeverBindsCommon(s, events, driver) && s.t.orphans == {} {
      assert before.t.orphans <= before.t.ca.live.Keys && before.t.orphans !! before.t.chans.Values;
      assert before.t.orphans == {} by {
        if h :| h in before.t.orphans {
          assert h in before.t.ca.live.Keys;
        }
      }
    }
  }

  // Where the extra channels of common mode come from: the channel of a pid whose k-th key setting was
  // refused keeps the settings before it and stays live outside the table.
  lemma OrphanIsAFailedBind(s: State, pid: nat, driver: Driver)
    requires Good(s) && IsPid(pid) && s.ready && !s.m.nsk && pid !in s.t.chans
    ensures var (s', ok) := Add(s, pid, driver);
            && (ok <==> pid in s'.t.chans)
            && (if ok then s'.t.orphans == s.t.orphans
                else (s'.t.orphans == s.t.orphans && s'.t.ca.live == s.t.ca.live) || Leaks(s.t, s'.t, {pid}, s.m))
  {
    var t := s.t.(added := s.t.added + {pid});
    assert KeysOf({pid}, false) !! t.chans.Keys;
    CommonChannelSound(t, pid, s.m.slots, s.m.algo, s.m.dscType, driver);
    CommonLeak(t, pid, s.m, driver);
    var s' := Add(s, pid, driver).0;
    if Leaks(t, s'.t, {pid}, s.m) {
      LeaksFrom(t, s.t, s'.t, {pid}, s.m);
    }
  }

  // A poll that fails leaves at most one such channel, of one of the added pids.
  lemma PollLeaksOne(s: State, poll: Poll, driver: Driver)
    requires Good(s)
    ensures var (s', ok) := CheckReady(s, poll, driver);
            s'.t.orphans == s.t.orphans || (!ok && !s'.m.nsk && Leaks(s.t, s'.t, s.t.added, s'.m))
  {
    if !s.ready && s.dsmFd >= 0 && poll.Answered? {
      var (m, complete) := ReadMode(s.m, poll.reply, s.m.slots);
      if complete {
        FillSound(s.t, m, driver);
        if !m.nsk {
          FillLeaks(s.t, m, driver);
        }
      }
    }
  }

  // ---------- what the calls do ----------

  lemma {:induction false} RunOneMore(s: State, events: seq<Event>, e: Event, driver: Driver)
    ensures Run(s, events + [e], driver) == Step(Run(s, events, driver), e, driver).0
    decreases |events|
  {
    if events == [] {
      assert [] + [e] == [e] && [e][1..] == [];
      assert Run(s, [e], driver) == Run(Step(s, e, driver).0, [], driver);
    } else {
      assert (events + [e])[1..] == events[1..] + [e];
      RunOneMore(Step(s, events[0], driver).0, events[1..], e, driver);
    }
  }

  // `removePid` frees exactly the pid's channels and forgets their keys and the pid.
  lemma RemoveExactly(s: State, pid: nat)
    requires Good(s)
    ensures var s' := Remove(s, pid);
            && PidRemoved(s.t, s'.t, pid, s.m.nsk) && s'.m == s.m && s'.ready == s.ready && s'.dsmFd == s.dsmFd
            && (forall k :: k in s'.t.chans ==> s'.t.chans[k] in s'.t.ca.live) && s.t.orphans <= s'.t.ca.live.Keys
  {
    DropExactly(s.t, pid, s.m.nsk);
  }

  // `addPid` always records the pid. It calls the driver only when ready, and only for a pid without a channel.
  lemma AddExactly(s: State, pid: nat, driver: Driver)
    requires Good(s) && IsPid(pid)
    ensures var (s', ok) := Add(s, pid, driver);
            && s'.t.added == s.t.added + {pid} && s'.m == s.m && s'.ready == s.ready && s'.dsmFd == s.dsmFd
            && (!s.ready || (exists k :: k in OwnKeys(pid, s.m.nsk) && k in s.t.chans) ==>
                  ok && s'.t.chans == s.t.chans && s'.t.ca == s.t.ca && s'.t.orphans == s.t.orphans)
            && (s.ready && (forall k :: k in OwnKeys(pid, s.m.nsk) ==> k !in s.t.chans) && ok ==>
                  PidAgrees(s'.t, pid, s.m))
  {
    KeysExactly({}, pid, s.m.nsk);
    var t := s.t.(added := s.t.added + {pid});
    assert Sound(t);
    if s.ready && KeysOf({pid}, s.m.nsk) !! t.chans.Keys {
      OneChannelSound(t, pid, s.m, driver);
    }
  }

  // What the session answers: slots, and an algorithm for the wanted side.
  predicate Complete(s: State, poll: Poll) {
    poll.Answered? && poll.reply.slots.Some? && PickAlgo(poll.reply.slots.value, poll.reply.isEnc, s.m.algo) != 15
  }

  // A poll makes the descrambler ready exactly if it was not, has a session that answers completely, and in common
  // mode every key slot has a key type and the driver obliges. A ready one stays as it is.
  lemma ReadyExactly(s: State, poll: Poll, driver: Driver)
    ensures var (s', ok) := CheckReady(s, poll, driver);
            && s'.t.added == s.t.added && s'.dsmFd == s.dsmFd
            && (ok <==> s'.ready)
            && (!s.ready && s.dsmFd >= 0 && poll.Answered? ==>
                  s'.m == ReadMode(s.m, poll.reply, s.m.slots).0 && (Complete(s, poll) || s'.t == s.t))
            && (s.ready || s.dsmFd < 0 || poll.SlotsPending? ==> s' == s)
            && (!s.ready && ok ==> s.dsmFd >= 0 && Complete(s, poll))
            && (!s.ready && s.dsmFd >= 0 && Complete(s, poll) && !s'.m.nsk ==>
                  (ok <==> CanWork(s.t.ca, s.t.added, poll.reply.slots.value, driver)))
  {
    if !s.ready && s.dsmFd >= 0 && poll.Answered? {
      var (m, complete) := ReadMode(s.m, poll.reply, s.m.slots);
      ReadModeExactly(s.m, poll.reply, s.m.slots);
      FillKeepsPids(s.t, m, driver);
      if complete && !m.nsk {
        FillCommonExactly(s.t, m, driver, 0);
      }
    }
  }

  // `close` forgets the table and the session, but neither the pids nor the ready flag.
  lemma CloseExactly(s: State)
    requires Good(s)
    ensures var s' := DoClose(s);
            && s'.t.chans == map[] && s'.t.ca.live.Keys == s.t.orphans && s'.t.added == s.t.added
            && s'.ready == s.ready && !s'.m.nsk && s'.dsmFd == (if s.dsmFd >= 0 then -1 else s.dsmFd)
            && s'.m.slots == s.m.slots && s'.m.algo == s.m.algo && s'.m.dscType == s.m.dscType
  {
    ClearEmpties(s.t, s.m.nsk);
  }

  // ---------- agreement ----------

  ghost predicate Agrees(s: State) {
    s.ready ==> forall p :: p in s.t.added ==> PidAgrees(s.t, p, s.m)
  }

  // While every call succeeds and the descrambler is not closed, the ready table is what the added pids
  // and the key slots call for.
  lemma StepAgrees(s: State, e: Event, driver: Driver)
    requires Good(s) && Legal(e) && Agrees(s) && e != Close
    requires e.AddPid? ==> Step(s, e, driver).1
    ensures Agrees(Step(s, e, driver).0)
  {
    match e
    case AddPid(pid) =>
      if s.ready {
        RecordAgrees(s.t, pid, s.m, driver);
      }
    case RemovePid(pid) =>
      if s.ready {
        ForgetAgrees(s.t, pid, s.m);
      }
    case Ready(poll) =>
      if !s.ready && s.dsmFd >= 0 && poll.Answered? {
        var (m, complete) := ReadMode(s.m, poll.reply, s.m.slots);
        if complete {
          FillSound(s.t, m, driver);
        }
      }
    case Close =>
  }

  // `close` empties the table but forgets neither the pids nor the ready flag, so a descrambler that is
  // used again agrees only when it was not ready or had no pid left.
  lemma CloseAgreesExactly(s: State)
    requires Good(s)
    ensures Agrees(DoClose(s)) <==> !s.ready || s.t.added == {}
  {
  }

  predicate AddsSucceed(s: State, events: seq<Event>, driver: Driver)
    decreases |events|
  {
    events == [] ||
    ((events[0].AddPid? ==> Step(s, events[0], driver).1) &&
     AddsSucceed(Step(s, events[0], driver).0, events[1..], driver))
  }

  // Over every run without a failed call, ending ready: the keys are exactly the added pids, times the
  // types of the key slots in NSK mode, and every slot was set on its own type's channel.
  lemma {:induction false} Agreement(s: State, events: seq<Event>, driver: Driver, k: nat)
    requires Good(s) && Agrees(s) && AllLegal(events) && Close !in events && AddsSucceed(s, events, driver)
    ensures var last := Run(s, events, driver);
            && Agrees(last)
            && (last.ready ==>
                  (k in last.t.chans <==>
                    if last.m.nsk
                    then exists ty, p :: IsType(ty) && p in last.t.added &&
                           Present(last.m.slots, |last.m.slots|, ty) && k == Pack(ty, p)
                    else k in last.t.added))
    decreases |events|
  {
    if events == [] {
      if s.ready {
        KeysExact(s.t, s.m, k);
      }
    } else {
      assert events[0] in events;
      StepKeeps(s, events[0], driver);
      StepAgrees(s, events[0], driver);
      Agreement(Step(s, events[0], driver).0, events[1..], driver, k);
    }
  }

  // ---------- the descrambler ----------

  class Descrambler {
    const channels: Channels
    var isReady: bool
    var dsmFd: int

    ghost function S(): State
      reads this, channels
    {
      State(channels.T(), channels.M(), isReady, dsmFd)
    }

    constructor (fd: int, algo: int, dscType: nat)
      ensures fresh(channels) && Good(S()) && Agrees(S())
      ensures S() == State(Table({}, map[], Ca(map[], 0), {}), Mode(false, [], algo, dscType), false, fd)
    {
      channels := new Channels(algo, dscType);
      isReady, dsmFd := false, fd;
    }

    method AddPid(pid: nat, driver: Driver) returns (ok: bool)
      modifies channels
      ensures (S(), ok) == Step(old(S()), Event.AddPid(pid), driver)
    {
      channels.addedPid := channels.addedPid + {pid};
      if !isReady {
        return true;
      }
      ok := channels.AddPidChannel(pid, driver);
    }

    method RemovePid(pid: nat)
      modifies channels
      ensures S() == Remove(old(S()), pid)
    {
      channels.FreePid(pid);
      channels.addedPid := channels.addedPid - {pid};
    }

    method IsDescramblerReady(poll: Poll, driver: Driver) returns (ok: bool)
      modifies this, channels
      ensures (S(), ok) == Step(old(S()), Ready(poll), driver)
    {
      if !isReady && dsmFd >= 0 {
        if poll.SlotsPending? {
          return isReady;
        }
        ok := channels.LoadSlots(poll.reply, channels.keyslots);
        if !ok {
          return isReady;
        }
        ok := channels.FillChannels(driver);
        if !ok {
          return isReady;
        }
        isReady := true;
      }
      return isReady;
    }

    method Close()
      modifies this, channels
      ensures S() == DoClose(old(S()))
    {
      channels.ClearDscChannels();
      channels.isNskDsc := false;
      if dsmFd >= 0 {
        dsmFd := -1;
      }
    }
  }
}
