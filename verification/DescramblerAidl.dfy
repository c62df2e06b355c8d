/**
 The descrambler of the AIDL HAL: the channel table under a session whose usage (live, playback, record
 or time shift) decides whether the table is used at all.
 */
module DescramblerAidl {
  import opened ChannelTable
  import opened Options

  datatype Usage = Live | Playback | Record | TimeShift

  // `backUp` is the last token that a client has set, `keyToken` the one that live usage compares with.
  datatype State = State(t: Table, m: Mode, ready: bool, dsmFd: int, usage: Usage, keyToken: nat, backUp: Option<nat>)

  // What the CA library answers while a key token is set: the handle of the new session, its usage
  // property, whether the demux plays back, and whether the CA device opened.
  datatype Session = Session(fd: int, usage: Option<Usage>, demuxPlayback: bool, caOpened: bool)

  datatype Poll = OtherUsage | SlotsPending | Answered(reply: SlotReply)

  datatype Event =
    | SetKeyToken(token: Option<nat>, session: Session)  // None is the empty token
    | AddPid(pid: nat, tokenSet: bool)
    | RemovePid(pid: nat, tokenUnset: bool)
    | Ready(poll: Poll)
    | Close
    | CloseDsmSession
    | OpenRecordDvr(session: Session)

  // A new token in live usage empties a ready table before the session is opened again.
  function DropSession(s: State, token: nat): State {
    var s := s.(keyToken := token);
    if s.ready && s.dsmFd >= 0 then s.(t := Clear(s.t, s.m.nsk), ready := false) else s
  }

  // The usage once a session with a positive handle has answered.
  function UsageAfter(s: State, o: Session): Usage {
    var reported := if o.usage.Some? then o.usage.value else s.usage;
    if reported.Live? && o.demuxPlayback then Playback else reported
  }

  function OpenSession(s: State, o: Session): (State, bool) {
    if o.fd <= 0 then (s.(dsmFd := o.fd), true)
    else
      var usage := UsageAfter(s, o);
      if !usage.Live? then (s.(usage := usage, dsmFd := -1), true)
      else (s.(usage := usage, dsmFd := o.fd), o.caOpened)
  }

  // `setKeyToken`: every token is backed up, but outside live usage the one in use is not replaced.
  function SetToken(s: State, token: Option<nat>, o: Session): (State, bool) {
    if token.None? then (s, false)
    else
      var s := s.(backUp := token);
      if s.usage.Live? && token.value == s.keyToken then (s, true)
      else OpenSession(if s.usage.Live? then DropSession(s, token.value) else s, o)
  }

  // `addPid` keeps the low 13 bits of the pid.
  function Add(s: State, pid: nat, tokenSet: bool, driver: Driver): (State, bool) {
    var pid := pid % 0x2000;
    var t := s.t.(added := s.t.added + {pid});
    if !s.usage.Live? then (s.(t := t), s.keyToken != 0 && tokenSet)
    else if s.ready then
      var (t', ok) := AddChannel(t, pid, s.m, driver);
      (s.(t := t'), ok)
    else (s.(t := t), true)
  }

  function Remove(s: State, pid: nat, tokenUnset: bool): State {
    var pid := pid % 0x2000;
    if s.usage.Live? then
      var t := Drop(s.t, KeysOf({pid}, s.m.nsk));
      s.(t := t.(added := t.added - {pid}))
    else if s.usage.Playback? && tokenUnset then s.(t := s.t.(added := s.t.added - {pid}))
    else s
  }

  // `isDescramblerReady`: a failed slot query leaves an empty slot list.
  function CheckReady(s: State, poll: Poll, driver: Driver): (State, bool) {
    if s.ready || s.dsmFd < 0 || !poll.Answered? then (s, s.ready)
    else
      var (m, complete) := ReadMode(s.m, poll.reply, []);
      if !complete then (s.(m := m), false)
      else
        var (t, ok) := Fill(s.t, m, driver);
        (s.(t := t, m := m, ready := ok), ok)
  }

  function DropFd(s: State): State {
    if s.dsmFd >= 0 then s.(dsmFd := -1) else s
  }

  // `close`: outside live usage only the pids are forgotten; in live usage the ready flag stays.
  function DoClose(s: State): State {
    if s.usage.Live? then DropFd(s.(t := Clear(s.t, s.m.nsk), m := s.m.(nsk := false)))
    else s.(t := s.t.(added := {}))
  }

  // What opening a record DVR does to the descrambler of the demux: the session is ended, and the token that
  // was backed up, if any, is set again.
  function ReopenForRecord(s: State, o: Session): State {
    if s.backUp.None? then s else SetToken(DropFd(s), s.backUp, o).0
  }

  function Step(s: State, e: Event, driver: Driver): (State, bool) {
    match e
    case SetKeyToken(token, session) => SetToken(s, token, session)
    case AddPid(pid, tokenSet) => Add(s, pid, tokenSet, driver)
    case RemovePid(pid, tokenUnset) => (Remove(s, pid, tokenUnset), true)
    case Ready(poll) => CheckReady(s, poll, driver)
    case Close => (DoClose(s), true)
    case CloseDsmSession => (DropFd(s), true)
    case OpenRecordDvr(session) => (ReopenForRecord(s, session), true)
  }

  function Run(s: State, events: seq<Event>, driver: Driver): State
    decreases |events|
  {
    if events == [] then s else Run(Step(s, events[0], driver).0, events[1..], driver)
  }

  // ---------- session-usage safety ----------

  // What the maintainers rely on: channels exist only while live and ready, under recorded pids, and
  // ready means that a session is open.
  predicate Safe(s: State) {
    Tidy(s) && (s.ready ==> s.dsmFd >= 0)
  }

  predicate Tidy(s: State) {
    && (!s.ready ==> s.t.chans == map[])
    && (!s.usage.Live? ==> s.t.chans == map[])
    && s.t.chans.Keys <= KeysOf(s.t.added, s.m.nsk)
  }

  // Safe and conserving channels.
  predicate Whole(s: State) {
    Sound(s.t) && PidsOk(s.t) && Safe(s)
  }

  // Also, outside live usage neither ready nor in a session.
  predicate Good(s: State) {
    Whole(s) && (!s.usage.Live? ==> !s.ready && s.dsmFd < 0)
  }

  // A new session would be open and live.
  predicate OpensLive(s: State, o: Session) {
    o.fd == 0 || (o.fd > 0 && UsageAfter(s, o).Live?)
  }

  // The steps that keep `Good`: no session handle 0 outside live usage, and no end of the session under a
  // ready descrambler. A record DVR ends it, and opens another one only for a token that is not in use.
  predicate Allowed(s: State, e: Event) {
    match e
    case SetKeyToken(token, session) => !(token.Some? && !s.usage.Live? && session.fd == 0)
    case Close => !(s.usage.Live? && s.ready)
    case CloseDsmSession => !s.ready
    case OpenRecordDvr(session) =>
      s.backUp.Some? ==>
        if s.usage.Live? then !s.ready || (s.backUp.value != s.keyToken && OpensLive(s, session)) else session.fd != 0
    case _ => true
  }

  lemma OpenKeeps(s: State, o: Session)
    requires Good(s) && !s.ready
    ensures Good(OpenSession(s, o).0) <==> s.usage.Live? || o.fd != 0
  {
  }

  lemma DropSessionKeeps(s: State, token: nat)
    requires Good(s) && s.usage.Live?
    ensures Good(DropSession(s, token)) && !DropSession(s, token).ready
    ensures DropSession(s, token).t.orphans == s.t.orphans
  {
  }

  lemma SetTokenKeeps(s: State, token: Option<nat>, o: Session)
    requires Good(s)
    ensures Good(SetToken(s, token, o).0) <==> Allowed(s, SetKeyToken(token, o))
    ensures SetToken(s, token, o).0.t.orphans == s.t.orphans
  {
    if token.Some? {
      if s.usage.Live? {
        if token.value != s.keyToken {
          DropSessionKeeps(s, token.value);
          OpenKeeps(DropSession(s, token.value), o);
        }
      } else {
        OpenKeeps(s, o);
      }
    }
  }

  lemma AddKeeps(s: State, pid: nat, tokenSet: bool, driver: Driver)
    requires Whole(s)
    ensures Whole(Add(s, pid, tokenSet, driver).0)
    ensures s.m.nsk || !s.ready ==> Add(s, pid, tokenSet, driver).0.t.orphans == s.t.orphans
  {
    var p := pid % 0x2000;
    var t := s.t.(added := s.t.added + {p});
    KeysGrow(s.t.added, t.added, s.m.nsk);
    assert Sound(t) && PidsOk(t);
    if s.ready {
      AddSound(t, p, s.m, driver);
    }
  }

  lemma RemoveKeeps(s: State, pid: nat, tokenUnset: bool)
    requires Whole(s)
    ensures Whole(Remove(s, pid, tokenUnset)) && Remove(s, pid, tokenUnset).t.orphans == s.t.orphans
  {
    var p := pid % 0x2000;
    if s.usage.Live? {
      RemoveSound(s.t, p, s.m.nsk);
      if !s.ready {
        assert Remove(s, pid, tokenUnset).t.chans.Keys == {};
      }
    }
  }

  // Filling the table enters a channel: there is a pid, and in NSK mode a key slot of some type.
  ghost predicate Enters(pids: set<nat>, m: Mode) {
    pids != {} && (m.nsk ==> exists ty :: IsType(ty) && Present(m.slots, |m.slots|, ty))
  }

  // A poll that succeeds outside live usage and enters a channel.
  ghost predicate FillsOutsideLive(s: State, poll: Poll, driver: Driver) {
    && !s.usage.Live? && !s.ready && CheckReady(s, poll, driver).1
    && Enters(s.t.added, CheckReady(s, poll, driver).0.m)
  }

  lemma ReadyKeeps(s: State, poll: Poll, driver: Driver)
    requires Whole(s)
    ensures var (s', ok) := CheckReady(s, poll, driver);
            && Sound(s'.t) && PidsOk(s'.t) && s'.ready == ok
            && (Safe(s') <==> !FillsOutsideLive(s, poll, driver))
            && (!BindsCommon(s, Ready(poll)) ==> s'.t.orphans == s.t.orphans)
  {
    if !s.ready && s.dsmFd >= 0 && poll.Answered? {
      var (m, complete) := ReadMode(s.m, poll.reply, []);
      if complete {
        FillSound(s.t, m, driver);
        if Fill(s.t, m, driver).1 {
          FillEnters(s.t, m, driver);
        }
      }
    }
  }

  lemma FillEnters(t: Table, m: Mode, driver: Driver)
    requires Sound(t) && PidsOk(t) && t.chans == map[] && Fill(t, m, driver).1
    ensures Fill(t, m, driver).0.chans != map[] <==> Enters(t.added, m)
  {
    FillSound(t, m, driver);
    var u := Fill(t, m, driver).0;
    if Enters(t.added, m) {
      var p :| p in t.added;
      if m.nsk {
        var ty :| IsType(ty) && Present(m.slots, |m.slots|, ty);
        assert PidAgrees(u, p, m) && Pack(ty, p) in u.chans;
      } else {
        assert PidAgrees(u, p, m) && p in u.chans;
      }
    } else if u.chans != map[] {
      var k :| k in u.chans;
      KeysExact(u, m, k);
    }
  }

  lemma CloseKeeps(s: State)
    requires Good(s)
    ensures Good(DoClose(s)) <==> Allowed(s, Close)
    ensures DoClose(s).t.chans == map[] && DoClose(s).t.ca.live.Keys == s.t.orphans
    ensures DoClose(s).t.orphans == s.t.orphans
  {
  }

  // The step sets up channels in common mode.
  predicate BindsCommon(s: State, e: Event) {
    match e
    case AddPid(_, _) => s.ready && !s.m.nsk
    case Ready(Answered(reply)) => !s.ready && s.dsmFd >= 0 && !ReadMode(s.m, reply, []).0.nsk
    case _ => false
  }

  // Exactly the allowed steps keep the invariant.
  lemma StepKeepsExactly(s: State, e: Event, driver: Driver)
    requires Good(s)
    ensures Good(Step(s, e, driver).0) <==> Allowed(s, e)
    ensures !BindsCommon(s, e) ==> Step(s, e, driver).0.t.orphans == s.t.orphans
  {
    match e
    case SetKeyToken(token, session) => SetTokenKeeps(s, token, session);
    case AddPid(pid, tokenSet) => AddKeeps(s, pid, tokenSet, driver);
    case RemovePid(pid, tokenUnset) => RemoveKeeps(s, pid, tokenUnset);
    case Ready(poll) => ReadyKeeps(s, poll, driver);
    case Close => CloseKeeps(s);
    case CloseDsmSession =>
    case OpenRecordDvr(session) => ReopenKeeps(s, session);
  }

  lemma ReopenKeeps(s: State, o: Session)
    requires Good(s)
    ensures Good(ReopenForRecord(s, o)) <==> Allowed(s, OpenRecordDvr(o))
    ensures ReopenForRecord(s, o).t.orphans == s.t.orphans
  {
  }

  // ---------- what the calls do ----------

  lemma {:induction false} RunOneMore(s: State, events: seq<Event>, e: Event, driver: Driver)
    ensures Run(s, events + [e], driver) == Step(Run(s, events, driver), e, driver).0
    decreases |events|
  {
    if events == [] {
      assert [] + [e] == [e] && [e][1..] == [];
      assert Run(s, [e], driver) == Run(Step(s, e, driver).0, [], driver);
    } else {
      assert (events + [e])[1..] == events[1..] + [e];
      RunOneMore(Step(s, events[0], driver).0, events[1..], e, driver);
    }
  }

  // The fields besides the table.
  predicate SameSession(s: State, s': State) {
    && s'.m == s.m && s'.ready == s.ready && s'.dsmFd == s.dsmFd && s'.usage == s.usage
    && s'.keyToken == s.keyToken && s'.backUp == s.backUp
  }

  // `removePid` frees exactly the channels of the low 13 bits of the pid and forgets their keys and the pid, in live
  // usage; in playback usage exactly the pid is forgotten, if its token could be unset; otherwise nothing changes.
  lemma RemoveExactly(s: State, pid: nat, tokenUnset: bool)
    requires Whole(s)
    ensures var s', p := Remove(s, pid, tokenUnset), pid % 8192;
            && SameSession(s, s')
            && (s.usage == Live ==>
                  PidRemoved(s.t, s'.t, p, s.m.nsk) && s.t.orphans <= s'.t.ca.live.Keys &&
                  forall k :: k in s'.t.chans ==> s'.t.chans[k] in s'.t.ca.live)
            && (s.usage != Live ==>
                  s'.t.added == (if s.usage == Playback && tokenUnset then s.t.added - {p} else s.t.added) &&
                  s'.t.chans == s.t.chans && s'.t.ca == s.t.ca && s'.t.orphans == s.t.orphans)
  {
    DropExactly(s.t, pid % 0x2000, s.m.nsk);
  }

  // `addPid` always records the low 13 bits of the pid. Outside live usage it only sets a token; in live usage it
  // calls the driver only when ready, and only for a pid without a channel.
  lemma AddExactly(s: State, pid: nat, tokenSet: bool, driver: Driver)
    requires Whole(s)
    ensures var (s', ok), p := Add(s, pid, tokenSet, driver), pid % 8192;
            && SameSession(s, s') && s'.t.added == s.t.added + {p}
            && (s.usage != Live ==> (ok <==> s.keyToken != 0 && tokenSet))
            && (s.usage == Live && (!s.ready || exists k :: k in OwnKeys(p, s.m.nsk) && k in s.t.chans) ==> ok)
            && (s.usage != Live || !s.ready || (exists k :: k in OwnKeys(p, s.m.nsk) && k in s.t.chans) ==>
                  s'.t.chans == s.t.chans && s'.t.ca == s.t.ca && s'.t.orphans == s.t.orphans)
            && (s.usage == Live && s.ready && (forall k :: k in OwnKeys(p, s.m.nsk) ==> k !in s.t.chans) && ok ==>
                  PidAgrees(s'.t, p, s.m))
  {
    var p := pid % 0x2000;
    KeysExactly({}, p, s.m.nsk);
    var t := s.t.(added := s.t.added + {p});
    assert Sound(t);
    if s.usage.Live? && s.ready && KeysOf({p}, s.m.nsk) !! t.chans.Keys {
      OneChannelSound(t, p, s.m, driver);
    }
  }

  // What the session answers: slots, and an algorithm for the wanted side.
  predicate Complete(s: State, poll: Poll) {
    poll.Answered? && poll.reply.slots.Some? && PickAlgo(poll.reply.slots.value, poll.reply.isEnc, s.m.algo) != 15
  }

  // A poll makes the descrambler ready exactly if it was not, has a session that answers completely, and in common
  // mode every key slot has a key type and the driver obliges. A ready one stays as it is.
  lemma ReadyExactly(s: State, poll: Poll, driver: Driver)
    ensures var (s', ok) := CheckReady(s, poll, driver);
            && s'.t.added == s.t.added && s'.dsmFd == s.dsmFd && s'.usage == s.usage
            && s'.keyToken == s.keyToken && s'.backUp == s.backUp && (ok <==> s'.ready)
            && (!s.ready && s.dsmFd >= 0 && poll.Answered? ==>
                  s'.m == ReadMode(s.m, poll.reply, []).0 && (Complete(s, poll) || s'.t == s.t))
            && (s.ready || s.dsmFd < 0 || !poll.Answered? ==> s' == s)
            && (!s.ready && ok ==> s.dsmFd >= 0 && Complete(s, poll))
            && (!s.ready && s.dsmFd >= 0 && Complete(s, poll) && !s'.m.nsk ==>
                  (ok <==> CanWork(s.t.ca, s.t.added, poll.reply.slots.value, driver)))
  {
    if !s.ready && s.dsmFd >= 0 && poll.Answered? {
      var (m, complete) := ReadMode(s.m, poll.reply, []);
      ReadModeExactly(s.m, poll.reply, []);
      FillKeepsPids(s.t, m, driver);
      if complete && !m.nsk {
        FillCommonExactly(s.t, m, driver, 0);
      }
    }
  }

  // `close` in live usage forgets the table and the session, but neither the pids nor the ready flag; in another
  // usage it forgets the pids alone. `closeDsmSession` forgets the session alone.
  lemma CloseExactly(s: State)
    requires Whole(s)
    ensures var s', e := DoClose(s), DropFd(s);
            && s'.ready == s.ready && s'.usage == s.usage && s'.keyToken == s.keyToken && s'.backUp == s.backUp
            && s'.t.chans == map[] && s'.t.ca.live.Keys == s.t.orphans && s'.m.slots == s.m.slots
            && s'.m.algo == s.m.algo && s'.m.dscType == s.m.dscType
            && (s.usage == Live ==> s'.t.added == s.t.added && s'.dsmFd == e.dsmFd && !s'.m.nsk)
            && (s.usage != Live ==> s'.t.added == {} && s'.dsmFd == s.dsmFd && s'.m.nsk == s.m.nsk)
            && e.dsmFd == (if s.dsmFd >= 0 then -1 else s.dsmFd) && SameSession(s, e.(dsmFd := s.dsmFd)) && e.t == s.t
  {
    ClearEmpties(s.t, s.m.nsk);
  }

  // `setKeyToken` with the token in live use only backs it up. Any other is put in use in live usage, where a ready
  // descrambler with a session loses its channels first; then a session is opened, which stays open if it is live.
  lemma SetTokenExactly(s: State, token: nat, o: Session)
    requires Whole(s)
    ensures SetToken(s, None, o) == (s, false)
    ensures var (s', ok), again := SetToken(s, Some(token), o), s.usage == Live && token == s.keyToken;
            var empties := s.usage == Live && !again && s.ready && s.dsmFd >= 0;
            && s'.backUp == Some(token) && s'.m == s.m && s'.t.added == s.t.added && s'.t.orphans == s.t.orphans
            && s'.keyToken == (if s.usage == Live then token else s.keyToken)
            && s'.ready == (s.ready && !empties)
            && (if empties then s'.t.chans == map[] && s'.t.ca.live.Keys == s.t.orphans else s'.t == s.t)
            && (again ==> ok && s'.dsmFd == s.dsmFd && s'.usage == s.usage)
            && (!again && o.fd <= 0 ==> ok && s'.dsmFd == o.fd && s'.usage == s.usage)
            && (!again && o.fd > 0 && NowLive(s, o) ==> ok == o.caOpened && s'.dsmFd == o.fd && s'.usage == Live)
            && (!again && o.fd > 0 && !NowLive(s, o) ==> ok && s'.dsmFd == -1 && s'.usage != Live)
            && (!again && o.fd > 0 && Reports(s, o) != Live ==> s'.usage == Reports(s, o))
            && (!again && o.fd > 0 && Reports(s, o) == Live && o.demuxPlayback ==> s'.usage == Playback)
  {
    ClearEmpties(s.t, s.m.nsk);
  }

  // The usage that the session reports; without a report it is the one from before.
  function Reports(s: State, o: Session): Usage {
    match o.usage
    case Some(usage) => usage
    case None => s.usage
  }

  predicate NowLive(s: State, o: Session) {
    Reports(s, o) == Live && !o.demuxPlayback
  }

  predicate AllAllowed(s: State, events: seq<Event>, driver: Driver)
    decreases |events|
  {
    events == [] || (Allowed(s, events[0]) && AllAllowed(Step(s, events[0], driver).0, events[1..], driver))
  }

  // Every run of allowed steps is safe throughout, and closing at its end leaves no table, whatever the
  // usage and whether ready or not.
  lemma {:induction false} RunSafe(s: State, events: seq<Event>, driver: Driver)
    requires Good(s) && AllAllowed(s, events, driver)
    ensures var last := Run(s, events, driver);
            && Good(last) && last.t.ca.live.Keys == last.t.chans.Values + last.t.orphans
            && DoClose(last).t.chans == map[] && DoClose(last).t.ca.live.Keys == last.t.orphans
    decreases |events|
  {
    if events == [] {
      CloseKeeps(s);
    } else {
      StepKeepsExactly(s, events[0], driver);
      RunSafe(Step(s, events[0], driver).0, events[1..], driver);
    }
  }

  // The steps that keep `Safe` alone. A handle of 0 outside live usage is among them: what ends the safety is
  // the poll that then fills the table, or a session that goes away while the descrambler is ready.
  ghost predicate SafelyAllowed(s: State, e: Event, driver: Driver) {
    match e
    case SetKeyToken(token, session) => token.Some? && !s.usage.Live? && s.ready ==> OpensLive(s, session)
    case Ready(poll) => !FillsOutsideLive(s, poll, driver)
    case Close => !(s.usage.Live? && s.ready)
    case CloseDsmSession => !s.ready
    case OpenRecordDvr(session) =>
      s.backUp.Some? && s.ready ==> !(s.usage.Live? && s.backUp.value == s.keyToken) && OpensLive(s, session)
    case _ => true
  }

  lemma SetTokenSafe(s: State, token: nat, o: Session)
    requires Sound(s.t) && PidsOk(s.t) && Tidy(s)
    ensures var s' := SetToken(s, Some(token), o).0;
            && Sound(s'.t) && PidsOk(s'.t)
            && (Safe(s') <==>
                if s.usage.Live? && token == s.keyToken then !s.ready || s.dsmFd >= 0
                else !s.ready || (s.usage.Live? && s.dsmFd >= 0) || OpensLive(s, o))
  {
  }

  // Exactly these.
  lemma StepSafeExactly(s: State, e: Event, driver: Driver)
    requires Whole(s)
    ensures var s' := Step(s, e, driver).0;
            Sound(s'.t) && PidsOk(s'.t) && (Safe(s') <==> SafelyAllowed(s, e, driver))
  {
    match e
    case SetKeyToken(token, session) =>
      if token.Some? {
        SetTokenSafe(s, token.value, session);
      }
    case AddPid(pid, tokenSet) => AddKeeps(s, pid, tokenSet, driver);
    case RemovePid(pid, tokenUnset) => RemoveKeeps(s, pid, tokenUnset);
    case Ready(poll) => ReadyKeeps(s, poll, driver);
    case Close =>
    case CloseDsmSession =>
    case OpenRecordDvr(session) =>
      if s.backUp.Some? {
        SetTokenSafe(DropFd(s), s.backUp.value, session);
      }
  }

  ghost predicate AllSafelyAllowed(s: State, events: seq<Event>, driver: Driver)
    decreases |events|
  {
    events == [] ||
    (SafelyAllowed(s, events[0], driver) && AllSafelyAllowed(Step(s, events[0], driver).0, events[1..], driver))
  }

  // Safe after every step of a run.
  predicate AlwaysSafe(s: State, events: seq<Event>, driver: Driver)
    decreases |events|
  {
    Safe(s) && (events == [] || AlwaysSafe(Step(s, events[0], driver).0, events[1..], driver))
  }

  // A run is safe throughout exactly if each of its steps is allowed so.
  lemma {:induction false} AlwaysSafeExactly(s: State, events: seq<Event>, driver: Driver)
    requires Whole(s)
    ensures AlwaysSafe(s, events, driver) <==> AllSafelyAllowed(s, events, driver)
    decreases |events|
  {
    if events == [] {
    } else {
      StepSafeExactly(s, events[0], driver);
      if SafelyAllowed(s, events[0], driver) {
        AlwaysSafeExactly(Step(s, events[0], driver).0, events[1..], driver);
      }
    }
  }

  // A session handle of 0 outside live usage is safe until a poll enters a channel, and not after that.
  lemma HandleZeroExactly(s: State, token: nat, o: Session, poll: Poll, driver: Driver)
    requires Good(s) && !s.usage.Live? && o.fd == 0
    ensures var zero := SetToken(s, Some(token), o).0;
            && Whole(zero) && !Good(zero)
            && (Safe(CheckReady(zero, poll, driver).0) <==>
                !(CheckReady(zero, poll, driver).1 && Enters(s.t.added, CheckReady(zero, poll, driver).0.m)))
  {
    SetTokenSafe(s, token, o);
    ReadyKeeps(SetToken(s, Some(token), o).0, poll, driver);
  }

  // The session answers the caller can rule out in advance: then only ending a session is restricted.
  predicate Ordinary(e: Event) {
    match e
    case SetKeyToken(_, session) => session.fd != 0
    case Close => false
    case CloseDsmSession => false
    case OpenRecordDvr(_) => false
    case _ => true
  }

  lemma {:induction false} OrdinaryRunsAllowed(s: State, events: seq<Event>, driver: Driver)
    requires Good(s) && forall i :: 0 <= i < |events| ==> Ordinary(events[i])
    ensures AllAllowed(s, events, driver)
    decreases |events|
  {
    if events == [] {
    } else {
      assert Ordinary(events[0]);
      StepKeepsExactly(s, events[0], driver);
      OrdinaryRunsAllowed(Step(s, events[0], driver).0, events[1..], driver);
    }
  }

  // Setting keys starts from an empty table whenever the descrambler becomes ready.
  lemma RekeyStartsEmpty(s: State, poll: Poll, driver: Driver)
    requires Good(s) && !s.ready && CheckReady(s, poll, driver).1
    ensures s.t.chans == map[] && s.usage.Live?
    ensures var s' := CheckReady(s, poll, driver).0; forall p :: p in s'.t.added ==> PidAgrees(s'.t, p, s'.m)
  {
    FillSound(s.t, ReadMode(s.m, poll.reply, []).0, driver);
  }

  // ---------- where the safety fails ----------

  // The state of a new descrambler.
  function Initial(dscType: nat): State {
    State(Table({}, map[], Ca(map[], 0), {}), Mode(false, [], ALGO_UNKNOWN, dscType), false, -1, Live, 0, None)
  }

  // A session handle of 0 outside live usage: the session is neither queried nor closed, and the poll then
  // fills the table in playback usage.
  function HandleZeroRun(slot: KeySlot): seq<Event> {
    [SetKeyToken(Some(1), Session(5, Some(Playback), false, true)), AddPid(5, true),
     SetKeyToken(Some(1), Session(0, None, false, true)),
     Ready(Answered(SlotReply(slot.isEnc, Some(false), Some([slot]), TypeFailed)))]
  }

  lemma HandleZeroFillsOutsideLive(dscType: nat, slot: KeySlot, driver: Driver)
    requires slot.algo != ALGO_UNKNOWN && !slot.parity.ParityOther? && driver(0) == 7 && driver(1) == 0
    ensures var s := Run(Initial(dscType), HandleZeroRun(slot), driver);
            s.usage.Playback? && s.ready && s.t.chans == map[5 := 7]
  {
    var es := HandleZeroRun(slot);
    var s2 := Step(Step(Initial(dscType), es[0], driver).0, es[1], driver).0;
    var s3 := Step(s2, es[2], driver).0;
    assert s3.t == Table({5}, map[], Ca(map[], 0), {}) && s3.dsmFd == 0 && s3.usage.Playback? && !s3.ready;
    FillOne(s3.t, Mode(false, [slot], slot.algo, COMMON), slot, driver);
    RunOfFour(Initial(dscType), es[0], es[1], es[2], es[3], driver);
  }

  lemma FillOne(t: Table, m: Mode, slot: KeySlot, driver: Driver)
    requires t == Table({5}, map[], Ca(map[], 0), {}) && !m.nsk && m.slots == [slot]
    requires !slot.parity.ParityOther? && driver(0) == 7 && driver(1) == 0
    ensures Fill(t, m, driver).1 && Fill(t, m, driver).0.chans == map[5 := 7]
  {
    var (ca, h) := AllocChan(t.ca, Channel(5, m.algo, m.dscType, []), driver);
    assert h == 7 && 7 in ca.live && ca.tick == 1;
    assert Bind(ca, 7, m.slots, 0, driver).1;
    var (u, ok) := OneChannel(t, 5, m, driver);
    assert ok && u.chans == map[5 := 7];
    assert {5} - {5} == {};
    assert AllocAll(u, {}, m, driver) == (u, true);
    assert AllocAll(t, {5}, m, driver) == AllocAll(u, {5} - {5}, m, driver);
  }

  lemma {:induction false} RunOfFour(s: State, a: Event, b: Event, c: Event, d: Event, driver: Driver)
    ensures Run(s, [a, b, c, d], driver) ==
            Step(Step(Step(Step(s, a, driver).0, b, driver).0, c, driver).0, d, driver).0
  {
    assert [a, b, c, d][1..] == [b, c, d] && [b, c, d][1..] == [c, d] && [c, d][1..] == [d] && [d][1..] == [];
    var u := Step(Step(s, a, driver).0, b, driver).0;
    assert Run(s, [a, b, c, d], driver) == Run(Step(s, a, driver).0, [b, c, d], driver) == Run(u, [c, d], driver);
    var v := Step(u, c, driver).0;
    assert Run(u, [c, d], driver) == Run(v, [d], driver) == Run(Step(v, d, driver).0, [], driver);
  }

  // Ending the session under a ready descrambler and then moving to playback usage: the old live channels
  // stay in the table.
  lemma EndedSessionKeepsChannels(s: State, token: nat, o: Session, driver: Driver)
    requires Good(s) && s.usage.Live? && s.ready && s.t.chans != map[]
    requires token != s.keyToken && o.fd > 0 && o.usage == Some(Playback)
    ensures var s' := Step(Step(s, CloseDsmSession, driver).0, SetKeyToken(Some(token), o), driver).0;
            s'.usage.Playback? && s'.ready && s'.t.chans == s.t.chans && s'.dsmFd < 0 && !Safe(s')
  {
  }

  // Opening a record DVR, once a client has set a token: a session is open afterwards exactly if that token is
  // not the one in live use, and the new session is open and live.
  lemma RecordDvrSessionExactly(s: State, o: Session)
    requires s.backUp.Some?
    ensures ReopenForRecord(s, o).dsmFd >= 0 <==> !(s.usage.Live? && s.backUp.value == s.keyToken) && OpensLive(s, o)
  {
  }

  // When it is, nothing but the session is lost, and no poll will ever make the descrambler ready or change it.
  lemma {:induction false} RecordDvrLosesSession(s: State, o: Session, polls: seq<Event>, driver: Driver)
    requires s.usage.Live? && s.backUp == Some(s.keyToken) && forall i :: 0 <= i < |polls| ==> polls[i].Ready?
    ensures var s' := Step(s, OpenRecordDvr(o), driver).0;
            s' == DropFd(s) && s'.dsmFd < 0 && Run(s', polls, driver) == s'
  {
    PollsChangeNothing(DropFd(s), polls, driver);
  }

  // That is so whenever the token was set in live usage, as by a client that watches and then records.
  lemma LiveTokenIsBackedUp(s: State, token: nat, o: Session, driver: Driver)
    requires s.usage.Live?
    ensures var s' := Step(s, SetKeyToken(Some(token), o), driver).0; s'.backUp == Some(s'.keyToken) == Some(token)
  {
  }

  // But a token set outside live usage is backed up and not put in use: the DVR then opens a session again.
  lemma OtherTokenReopens(s: State, token: nat, live: Session, o: Session, driver: Driver)
    requires !s.usage.Live? && token != s.keyToken
    requires live.fd > 0 && UsageAfter(s, live).Live? && o.fd > 0 && o.usage == Some(Live) && !o.demuxPlayback
    ensures var s' := Step(Step(s, SetKeyToken(Some(token), live), driver).0, OpenRecordDvr(o), driver).0;
            s'.usage.Live? && s'.dsmFd == o.fd && s'.keyToken == token
  {
  }

  lemma {:induction false} PollsChangeNothing(s: State, polls: seq<Event>, driver: Driver)
    requires s.dsmFd < 0 && forall i :: 0 <= i < |polls| ==> polls[i].Ready?
    ensures Run(s, polls, driver) == s
    decreases |polls|
  {
    if polls == [] {
    } else {
      assert polls[0].Ready?;
      PollsChangeNothing(s, polls[1..], driver);
    }
  }

  // ---------- agreement ----------

  ghost predicate Agrees(s: State) {
    s.ready ==> forall p :: p in s.t.added ==> PidAgrees(s.t, p, s.m)
  }

  lemma StepAgrees(s: State, e: Event, driver: Driver)
    requires Good(s) && Agrees(s) && Allowed(s, e) && (e.AddPid? ==> Step(s, e, driver).1)
    ensures Agrees(Step(s, e, driver).0)
  {
    match e
    case AddPid(pid, _) =>
      if s.ready {
        RecordAgrees(s.t, pid % 0x2000, s.m, driver);
      }
    case RemovePid(pid, _) =>
      if s.ready {
        ForgetAgrees(s.t, pid % 0x2000, s.m);
      }
    case Ready(poll) =>
      if !s.ready && CheckReady(s, poll, driver).1 {
        RekeyStartsEmpty(s, poll, driver);
      }
    case SetKeyToken(token, session) =>
    case Close =>
    case CloseDsmSession =>
    case OpenRecordDvr(session) =>
      if s.ready {
        ReopenAgrees(s, session);
      }
  }

  lemma ReopenAgrees(s: State, o: Session)
    requires Agrees(s) && s.ready && s.usage.Live?
    ensures var s' := ReopenForRecord(s, o); s'.t == s.t && s'.m == s.m && Agrees(s')
  {
  }

  predicate AddsSucceed(s: State, events: seq<Event>, driver: Driver)
    decreases |events|
  {
    events == [] ||
    ((events[0].AddPid? ==> Step(s, events[0], driver).1) &&
     AddsSucceed(Step(s, events[0], driver).0, events[1..], driver))
  }

  // Over every allowed run without a failed `addPid`, ending live and ready: the keys are exactly the added
  // pids, times the types of the key slots in NSK mode, and every slot was set on its own type's channel.
  lemma {:induction false} Agreement(s: State, events: seq<Event>, driver: Driver, k: nat)
    requires Good(s) && Agrees(s) && AllAllowed(s, events, driver) && AddsSucceed(s, events, driver)
    ensures var last := Run(s, events, driver);
            && Agrees(last)
            && (last.ready ==>
                  last.usage.Live? && last.dsmFd >= 0 &&
                  (k in last.t.chans <==>
                    if last.m.nsk
                    then exists ty, p :: IsType(ty) && p in last.t.added &&
                           Present(last.m.slots, |last.m.slots|, ty) && k == Pack(ty, p)
                    else k in last.t.added))
    decreases |events|
  {
    if events == [] {
      if s.ready {
        KeysExact(s.t, s.m, k);
      }
    } else {
      StepKeepsExactly(s, events[0], driver);
      StepAgrees(s, events[0], driver);
      Agreement(Step(s, events[0], driver).0, events[1..], driver, k);
    }
  }

  // ---------- key tokens ----------

  type Byte = x: int | 0 <= x < 256

  // What may be kept of a token: nothing, or at least the four bytes that are looked at.
  type Token = b: seq<Byte> | |b| == 0 || |b| >= 4

  // The bytes from `i` on, least significant first.
  function TokenFrom(b: seq<Byte>, i: nat): (v: nat)
    requires i <= 4 <= |b|
    ensures v <= 0xFFFF_FFFF
    ensures i == 3 ==> v <= 0xFF
    ensures i == 2 ==> v <= 0xFFFF
    ensures i == 1 ==> v <= 0xFF_FFFF
    decreases 4 - i
  {
    if i == 4 then 0 else TokenFrom(b, i + 1) * 0x100 + b[i]
  }

  function TokenValue(b: Token): Option<nat> {
    if b == [] then None else Some(TokenFrom(b, 0))
  }

  // Tokens are the same exactly if they begin with the same four bytes.
  lemma SameToken(a: Token, b: Token)
    requires a != [] && b != []
    ensures TokenValue(a) == TokenValue(b) <==> a[..4] == b[..4]
  {
    SameFrom(a, b, 0);
    assert a[..4] == a[0..4] && b[..4] == b[0..4];
  }

  lemma {:induction false} SameFrom(a: seq<Byte>, b: seq<Byte>, i: nat)
    requires i <= 4 <= |a| && 4 <= |b|
    ensures TokenFrom(a, i) == TokenFrom(b, i) <==> a[i..4] == b[i..4]
    decreases 4 - i
  {
    if i == 4 {
    } else {
      SameFrom(a, b, i + 1);
      SameDigit(TokenFrom(a, i + 1), a[i], TokenFrom(b, i + 1), b[i]);
      SameCons(a[i], a[i + 1..4], b[i], b[i + 1..4]);
      FirstOf(a, i);
      FirstOf(b, i);
    }
  }

  lemma FirstOf(b: seq<Byte>, i: nat)
    requires i < 4 <= |b|
    ensures b[i..4] == [b[i]] + b[i + 1..4]
  {
  }

  lemma SameDigit(u: nat, x: Byte, v: nat, y: Byte)
    ensures u * 0x100 + x == v * 0x100 + y <==> u == v && x == y
  {
  }

  lemma SameCons(x: Byte, s: seq<Byte>, y: Byte, t: seq<Byte>)
    ensures [x] + s == [y] + t <==> x == y && s == t
  {
    if [x] + s == [y] + t {
      assert ([x] + s)[0] == ([y] + t)[0] && ([x] + s)[1..] == ([y] + t)[1..];
      assert ([x] + s)[1..] == s && ([y] + t)[1..] == t;
    }
  }

  // Shifting by eight and or-ing a byte is multiplying and adding while the upper byte is clear.
  lemma TokenIsShiftOr(v: bv32, b: bv32)
    requires v <= 0xFF_FFFF && b < 0x100
    ensures (v << 8) | b == v * 0x100 + b
  {
  }

  // The loop over the four bytes.
  method ReadToken(b: seq<Byte>) returns (tempToken: nat)
    requires |b| >= 4
    ensures TokenValue(b) == Some(tempToken)
  {
    tempToken := 0;
    var tokenIdx := 3;
    while tokenIdx >= 0
      invariant -1 <= tokenIdx <= 3 && tempToken == TokenFrom(b, tokenIdx + 1)
    {
      tempToken := tempToken * 0x100 + b[tokenIdx];
      tokenIdx := tokenIdx - 1;
    }
  }

  // ---------- the descrambler ----------

  class Descrambler {
    const channels: Channels
    var isReady: bool
    var dsmFd: int
    var casSessionUsage: Usage
    var keyToken: nat
    var backUpKeyToken: Token

    ghost function S(): State
      reads this, channels
    {
      State(channels.T(), channels.M(), isReady, dsmFd, casSessionUsage, keyToken, TokenValue(backUpKeyToken))
    }

    constructor (dscType: nat)
      ensures fresh(channels) && Good(S()) && Agrees(S())
      ensures S() == Initial(dscType)
    {
      channels := new Channels(ALGO_UNKNOWN, dscType);
      isReady, dsmFd, casSessionUsage, keyToken, backUpKeyToken := false, -1, Live, 0, [];
    }

    // The end of `setKeyToken`, from opening the session on.
    method OpenDsmSession(o: Session) returns (ok: bool)
      modifies this`dsmFd, this`casSessionUsage
      ensures (S(), ok) == OpenSession(old(S()), o)
    {
      dsmFd := o.fd;
      if dsmFd > 0 {
        if o.usage.Some? {
          casSessionUsage := o.usage.value;
        }
        if casSessionUsage.Live? && o.demuxPlayback {
          casSessionUsage := Playback;
        }
        if !casSessionUsage.Live? {
          dsmFd := -1;
          return true;
        } else if !o.caOpened {
          return false;
        }
      }
      return true;
    }

    // The loop reads four bytes, however few there are: `None` for a token of one to three bytes.
    method SetKeyToken(in_keyToken: seq<Byte>, o: Session) returns (r: Option<bool>)
      modifies this, channels
      ensures r.None? <==> 0 < |in_keyToken| < 4
      ensures r.Some? ==> (S(), r.value) == SetToken(old(S()), TokenValue(in_keyToken), o)
    {
      if in_keyToken == [] {
        return Some(false);
      }
      if |in_keyToken| < 4 {
        return None;
      }
      backUpKeyToken := in_keyToken;
      var tempToken := ReadToken(in_keyToken);
      if casSessionUsage.Live? {
        if tempToken == keyToken {
          return Some(true);
        }
        keyToken := tempToken;
        if isReady && dsmFd >= 0 {
          channels.ClearDscChannels();
          isReady := false;
        }
      }
      var ok := OpenDsmSession(o);
      return Some(ok);
    }

    method AddPid(in_pid: nat, tokenSet: bool, driver: Driver) returns (ok: bool)
      modifies channels
      ensures (S(), ok) == Add(old(S()), in_pid, tokenSet, driver)
    {
      var pid := in_pid % 0x2000;
      channels.addedPid := channels.addedPid + {pid};
      if !casSessionUsage.Live? {
        return keyToken != 0 && tokenSet;
      }
      if !isReady {
        return true;
      }
      ok := channels.AddPidChannel(pid, driver);
    }

    method RemovePid(in_pid: nat, tokenUnset: bool)
      modifies channels
      ensures S() == Remove(old(S()), in_pid, tokenUnset)
    {
      var pid := in_pid % 0x2000;
      if !casSessionUsage.Live? {
        if casSessionUsage.Playback? && tokenUnset {
          channels.addedPid := channels.addedPid - {pid};
        }
        return;
      }
      channels.FreePid(pid);
      channels.addedPid := channels.addedPid - {pid};
    }

    method IsDescramblerReady(poll: Poll, driver: Driver) returns (ok: bool)
      modifies this, channels
      ensures (S(), ok) == CheckReady(old(S()), poll, driver)
    {
      if !isReady && dsmFd >= 0 {
        if !poll.Answered? {
          return isReady;
        }
        ok := channels.LoadSlots(poll.reply, []);
        if !ok {
          return isReady;
        }
        ok := channels.FillChannels(driver);
        if !ok {
          return isReady;
        }
        isReady := true;
      }
      return isReady;
    }

    method CloseSession()
      modifies this
      ensures S() == DropFd(old(S()))
    {
      if dsmFd >= 0 {
        dsmFd := -1;
      }
    }

    // The calls that `Demux::openDvr` makes for a record DVR.
    method ReopenForRecordDvr(o: Session)
      modifies this, channels
      ensures S() == ReopenForRecord(old(S()), o)
    {
      if backUpKeyToken != [] {
        CloseSession();
        var _ := SetKeyToken(backUpKeyToken, o);
      }
    }

    method Close()
      modifies this, channels
      ensures S() == DoClose(old(S()))
    {
      if !casSessionUsage.Live? {
        channels.addedPid := {};
        return;
      }
      channels.ClearDscChannels();
      channels.isNskDsc := false;
      CloseSession();
    }
  }
}
