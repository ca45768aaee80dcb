/**
 * What closing a session and sending frames leave alone: who the other sessions are, the calls, the packets and the
 * streams.
 */
module VoiceStill {
  import opened Basics
  import opened VoiceTypes
  import opened VoiceSpec
  import opened VoiceInvariant

  // ---- what stays --------------------------------------------------------------------------

  /** What only a session's own join and offer change. */
  datatype Who =
    Who(owner: seq<byte>, sfuId: SfuId, callKey: Option<CallKey>, phase: Phase, hasRtc: bool, opusPt: Option<nat>)

  function WhoIs(s: Session): Who { Who(s.owner, s.sfuId, s.callKey, s.phase, s.rtc.Some?, s.opusPt) }

  function Inbound(s: Session): seq<Packet> { if s.rtc.Some? then s.rtc.value.inbound else [] }

  /** Question number `n` was asked on the way from `S` to `S'`. */
  predicate Asked(S: Srv, S': Srv, n: nat) { S.loop.tick <= n < S'.loop.tick }

  /** Nobody new, and nobody somebody else. */
  ghost predicate SameSessions(ss: Sessions, ss': Sessions) {
    forall t :: t in ss' ==> t in ss && WhoIs(ss'[t]) == WhoIs(ss[t])
  }

  /** A timer is as it was, off, or set by a poll on the way. */
  ghost predicate TimerFrom(S: Srv, S': Srv, was: Option<Instant>, timer: Option<Instant>) {
    timer == was || timer.None? || exists n :: Asked(S, S', n) && S.env.w.poll(n).end == PollEnd.Idle(timer.value)
  }

  ghost predicate SameTimers(S: Srv, S': Srv) {
    forall t :: t in S'.table.sessions && t in S.table.sessions ==>
      TimerFrom(S, S', S.table.sessions[t].nextTimeout, S'.table.sessions[t].nextTimeout)
  }

  ghost predicate Vacant(ss: Sessions, k: CallKey) { forall t :: t in ss ==> ss[t].callKey != Some(k) }

  /** An idle clock is as it was or was started on the way. */
  ghost predicate ClockFrom(S: Srv, S': Srv, was: Option<Instant>, clock: Option<Instant>) {
    clock == was || clock.None? || exists n :: Asked(S, S', n) && S.env.w.now(n) == clock.value
  }

  /** The same calls with the same caps, those nobody is in untouched; none becomes live. */
  ghost predicate SameCalls(S: Srv, S': Srv) {
    && S'.table.calls.Keys == S.table.calls.Keys
    && LiveCalls(S'.table.calls) <= LiveCalls(S.table.calls)
    && forall k :: k in S.table.calls ==>
         && S'.table.calls[k].cap == S.table.calls[k].cap
         && ClockFrom(S, S', S.table.calls[k].emptySince, S'.table.calls[k].emptySince)
         && (Vacant(S.table.sessions, k) ==> S'.table.calls[k] == S.table.calls[k])
  }

  /** No packet moves. */
  ghost predicate Unmoved(S: Srv, S': Srv) {
    && S'.past.heard == S.past.heard && S'.past.arrived == S.past.arrived
    && forall t :: t in S'.table.sessions ==>
         t in S.table.sessions && Inbound(S'.table.sessions[t]) == Inbound(S.table.sessions[t])
  }

  /** Every stream is still there, from the same source and the same packet on, with everything it carried. */
  ghost predicate Grows(was: map<StreamKey, Stream>, now: map<StreamKey, Stream>) {
    forall k :: k in was ==>
      k in now && now[k].source == was[k].source && now[k].start == was[k].start && was[k].log <= now[k].log
  }

  ghost predicate Later(S: Srv, S': Srv) { S'.env == S.env && S.loop.tick <= S'.loop.tick }

  /** Configuration, slots and arrivals are the same, and more questions may have been asked. */
  ghost predicate Forth(S: Srv, S': Srv) {
    && Later(S, S') && S'.registry == S.registry && S'.loop.nextSid == S.loop.nextSid
    && S'.loop.idCounter == S.loop.idCounter && S'.past.arrived == S.past.arrived
  }

  /** Sessions may go and packets be handed on, but nobody joins. */
  ghost predicate Onward(S: Srv, S': Srv) {
    && Forth(S, S') && SameSessions(S.table.sessions, S'.table.sessions) && SameTimers(S, S') && SameCalls(S, S')
    && Grows(S.past.streams, S'.past.streams)
  }

  /** Sessions may go, and that is all. */
  ghost predicate Still(S: Srv, S': Srv) {
    && Onward(S, S') && Unmoved(S, S') && S'.past.streams == S.past.streams && S.loop.dirty <= S'.loop.dirty
  }

  // ---- who stays -----------------------------------------------------------------------------

  /** Every question between `S` and `S'` had a good answer: frames were taken. */
  ghost predicate AllTaken(S: Srv, S': Srv) { forall n :: Asked(S, S', n) ==> S.env.w.delivers(n) }

  /** The library says that the connection is over: on the nudge, as an event, afterwards, or by failing. */
  predicate Over(poll: Poll) { !poll.alive || poll.disconnected || poll.nudgeFails || !poll.end.Idle? }

  /** And no poll ended a session. */
  ghost predicate Calm(S: Srv, S': Srv) {
    AllTaken(S, S') && forall n :: Asked(S, S', n) ==> !Over(S.env.w.poll(n))
  }

  /** Nobody is lost unless a frame is refused. */
  ghost predicate Sends(S: Srv, S': Srv) {
    Still(S, S') && (AllTaken(S, S') ==> S'.table.sessions.Keys == S.table.sessions.Keys)
  }

  /** Nobody is lost unless a frame is refused or a poll ends a session. */
  ghost predicate Drains(S: Srv, S': Srv) {
    Onward(S, S') && (Calm(S, S') ==> S'.table.sessions.Keys == S.table.sessions.Keys)
  }

  // ---- one after the other ---------------------------------------------------------------------

  lemma TimersTwice(S: Srv, S1: Srv, S2: Srv)
    requires Later(S, S1) && Later(S1, S2) && S2.table.sessions.Keys <= S1.table.sessions.Keys
    requires SameTimers(S, S1) && SameTimers(S1, S2)
    ensures SameTimers(S, S2)
  {
    forall t | t in S2.table.sessions && t in S.table.sessions
      ensures TimerFrom(S, S2, S.table.sessions[t].nextTimeout, S2.table.sessions[t].nextTimeout)
    {
      assert TimerFrom(S1, S2, S1.table.sessions[t].nextTimeout, S2.table.sessions[t].nextTimeout);
      assert TimerFrom(S, S1, S.table.sessions[t].nextTimeout, S1.table.sessions[t].nextTimeout);
    }
  }

  lemma CallsTwice(S: Srv, S1: Srv, S2: Srv)
    requires Forth(S, S1) && Forth(S1, S2) && SameSessions(S.table.sessions, S1.table.sessions)
    requires SameCalls(S, S1) && SameCalls(S1, S2)
    ensures SameCalls(S, S2)
  {
    forall k | k in S.table.calls
      ensures ClockFrom(S, S2, S.table.calls[k].emptySince, S2.table.calls[k].emptySince)
      ensures Vacant(S.table.sessions, k) ==> S2.table.calls[k] == S.table.calls[k]
    {
      assert ClockFrom(S1, S2, S1.table.calls[k].emptySince, S2.table.calls[k].emptySince);
      assert ClockFrom(S, S1, S.table.calls[k].emptySince, S1.table.calls[k].emptySince);
      if Vacant(S.table.sessions, k) {
        assert forall t :: t in S1.table.sessions ==> WhoIs(S1.table.sessions[t]) == WhoIs(S.table.sessions[t]);
        assert Vacant(S1.table.sessions, k);
      }
    }
  }

  lemma OnwardTwice(S: Srv, S1: Srv, S2: Srv)
    requires Onward(S, S1) && Onward(S1, S2)
    ensures Onward(S, S2)
  {
    hide SameTimers, SameCalls;
    TimersTwice(S, S1, S2);
    CallsTwice(S, S1, S2);
  }

  lemma StillTwice(S: Srv, S1: Srv, S2: Srv)
    requires Still(S, S1) && Still(S1, S2)
    ensures Still(S, S2)
  {
    hide Onward;
    OnwardTwice(S, S1, S2);
  }

  lemma SendsTwice(S: Srv, S1: Srv, S2: Srv)
    requires Sends(S, S1) && Sends(S1, S2)
    ensures Sends(S, S2)
  {
    StillTwice(S, S1, S2);
    hide SameTimers, SameCalls, SameSessions, Unmoved, Grows;
    if AllTaken(S, S2) {
      forall n | Asked(S, S1, n) ensures S.env.w.delivers(n) { assert Asked(S, S2, n); }
      forall n | Asked(S1, S2, n) ensures S.env.w.delivers(n) { assert Asked(S, S2, n); }
    }
  }

  lemma DrainsTwice(S: Srv, S1: Srv, S2: Srv)
    requires Drains(S, S1) && Drains(S1, S2)
    ensures Drains(S, S2)
  {
    OnwardTwice(S, S1, S2);
    hide SameTimers, SameCalls, SameSessions, Grows;
    if Calm(S, S2) {
      forall n | Asked(S, S1, n) ensures S.env.w.delivers(n) && !Over(S.env.w.poll(n)) { assert Asked(S, S2, n); }
      forall n | Asked(S1, S2, n) ensures S.env.w.delivers(n) && !Over(S.env.w.poll(n)) { assert Asked(S, S2, n); }
    }
  }

  // ---- one thing at a time ------------------------------------------------------------------------

  lemma NothingStill(S: Srv)
    ensures Sends(S, S)
  {
  }

  /** Asking a question, putting a frame on a channel, putting a session on the work list. */
  lemma LoopStill(S: Srv, sid: Sid, frame: ServerFrame)
    ensures Sends(S, Ticked(S)) && Sends(S, TrySend(S, sid, frame)) && Sends(S, MarkDirty(S, sid))
  {
  }

  /** A session with other slots or queue. */
  lemma SetStill(S: Srv, sid: Sid, s: Session)
    requires sid in S.table.sessions && WhoIs(s) == WhoIs(S.table.sessions[sid])
    requires Inbound(s) == Inbound(S.table.sessions[sid])
    requires s.nextTimeout.None? || s.nextTimeout == S.table.sessions[sid].nextTimeout
    ensures Sends(S, SetSession(S, sid, s)) && Sends(S, MarkDirty(SetSession(S, sid, s), sid))
  {
  }

  // ---- what only closes and sends ----------------------------------------------------------------

  /** A session goes and leaves the roster; a roster that empties starts the clock. */
  function Departed(S: Srv, sid: Sid, final: Option<ServerFrame>): Srv
    requires sid in S.table.sessions
  {
    var key := S.table.sessions[sid].callKey;
    var S1 := SendFinal(RemoveSession(S, sid), sid, final);
    if key.Some? && key.value in S1.table.calls then Unseat(S1, key.value, sid) else S1
  }

  /** One call when a roster loses `gone`. */
  ghost predicate CallLeft(S: Srv, S': Srv, was: Call, now: Call) {
    && now.cap == was.cap && (was.participants == [] ==> now.participants == [])
    && (now.emptySince == was.emptySince
        || (S'.loop.tick > S.loop.tick && now.emptySince == Some(S.env.w.now(S'.loop.tick - 1))))
  }

  lemma UnseatFrame(S: Srv, key: CallKey, gone: Sid)
    requires key in S.table.calls
    ensures var S' := Unseat(S, key, gone);
            && S' == S.(table := S.table.(calls := S'.table.calls), loop := S.loop.(tick := S'.loop.tick))
            && S.loop.tick <= S'.loop.tick && S'.table.calls.Keys == S.table.calls.Keys
            && (forall k :: k in S.table.calls && k != key ==> S'.table.calls[k] == S.table.calls[k])
            && CallLeft(S, S', S.table.calls[key], S'.table.calls[key])
  {
    hide Without;
    if S.table.calls[key].participants == [] { NobodyLeaves(gone); }
  }

  lemma NobodyLeaves(gone: Sid)
    ensures Without([], gone) == []
  {
  }

  lemma FinalFrame(S: Srv, sid: Sid, final: Option<ServerFrame>)
    ensures var S' := SendFinal(RemoveSession(S, sid), sid, final);
            && S' == S.(table := Table(S.table.sessions - {sid}, S.table.calls),
                        loop := S.loop.(tick := S'.loop.tick), past := S.past.(sent := S'.past.sent))
            && S.loop.tick <= S'.loop.tick
  {
  }

  lemma DepartedFrame(S: Srv, sid: Sid, final: Option<ServerFrame>)
    requires sid in S.table.sessions
    ensures var S' := Departed(S, sid, final);
            && S'.table.sessions == S.table.sessions - {sid} && S'.env == S.env && S'.registry == S.registry
            && S'.past == S.past.(sent := S'.past.sent) && S'.loop == S.loop.(tick := S'.loop.tick)
            && S.loop.tick <= S'.loop.tick && S'.table.calls.Keys == S.table.calls.Keys
            && forall k :: k in S.table.calls ==>
                 && CallLeft(S, S', S.table.calls[k], S'.table.calls[k])
                 && (S.table.sessions[sid].callKey != Some(k) ==> S'.table.calls[k] == S.table.calls[k])
  {
    hide SendFinal, Unseat, RemoveSession;
    var key, S1 := S.table.sessions[sid].callKey, SendFinal(RemoveSession(S, sid), sid, final);
    FinalFrame(S, sid, final);
    if key.Some? && key.value in S.table.calls { UnseatFrame(S1, key.value, sid); }
  }

  lemma DepartedStill(S: Srv, sid: Sid, final: Option<ServerFrame>)
    requires sid in S.table.sessions
    ensures var S' := Departed(S, sid, final);
            Still(S, S') && S'.table.sessions.Keys == S.table.sessions.Keys - {sid}
  {
    hide Departed;
    var S' := Departed(S, sid, final);
    DepartedFrame(S, sid, final);
    forall k | k in S.table.calls
      ensures ClockFrom(S, S', S.table.calls[k].emptySince, S'.table.calls[k].emptySince)
      ensures Vacant(S.table.sessions, k) ==> S'.table.calls[k] == S.table.calls[k]
    {
      if S'.loop.tick > S.loop.tick { assert Asked(S, S', S'.loop.tick - 1); }
    }
  }

  lemma ForgetOneStill(S: Srv, p: Sid, gone: Sid, sfu: SfuId)
    ensures Still(S, ForgetOne(S, p, gone, sfu))
    ensures ForgetOne(S, p, gone, sfu).table.sessions.Keys == S.table.sessions.Keys
  {
    hide Still, WithoutSource;
    NothingStill(S);
    if p in S.table.sessions {
      var S1 := SetSession(S, p, Forget(S.table.sessions[p], gone));
      SetStill(S, p, Forget(S.table.sessions[p], gone));
      LoopStill(S1, p, PeerLeft(sfu));
      StillTwice(S, S1, TrySend(S1, p, PeerLeft(sfu)));
    }
  }

  lemma {:induction false} ForgetAllStill(S: Srv, rest: seq<Sid>, gone: Sid, sfu: SfuId)
    ensures Still(S, ForgetAll(S, rest, gone, sfu))
    ensures ForgetAll(S, rest, gone, sfu).table.sessions.Keys == S.table.sessions.Keys
    decreases |rest|
  {
    hide Still, ForgetOne;
    NothingStill(S);
    if rest != [] {
      var S1 := ForgetOne(S, rest[0], gone, sfu);
      ForgetOneStill(S, rest[0], gone, sfu);
      ForgetAllStill(S1, rest[1..], gone, sfu);
      StillTwice(S, S1, ForgetAll(S1, rest[1..], gone, sfu));
    }
  }

  /** Closing takes the session away and nobody else. */
  lemma CloseStill(S: Srv, sid: Sid, final: Option<ServerFrame>)
    ensures Still(S, CloseSession(S, sid, final))
    ensures CloseSession(S, sid, final).table.sessions.Keys == S.table.sessions.Keys - {sid}
  {
    hide Still, ForgetAll, Unseat;
    NothingStill(S);
    if sid in S.table.sessions {
      var s, S1 := S.table.sessions[sid], Departed(S, sid, final);
      DepartedStill(S, sid, final);
      if s.callKey.Some? && s.callKey.value in S.table.calls {
        assert s.callKey.value in S1.table.calls by { StillCalls(S, S1); }
        var rest := S1.table.calls[s.callKey.value].participants;
        ForgetAllStill(S1, rest, sid, s.sfuId);
        StillTwice(S, S1, ForgetAll(S1, rest, sid, s.sfuId));
      }
    }
  }

  lemma StillCalls(S: Srv, S': Srv)
    requires Still(S, S')
    ensures S'.table.calls.Keys == S.table.calls.Keys
  {
  }

  lemma SendStill(S: Srv, sid: Sid, frame: ServerFrame)
    ensures Sends(S, Send(S, sid, frame))
  {
    hide CloseSession, Still, AllTaken;
    NothingStill(S);
    if sid in S.table.sessions {
      var S1 := TrySend(S, sid, frame);
      LoopStill(S, sid, frame);
      if !S.env.w.delivers(S.loop.tick) {
        CloseStill(S1, sid, None);
        StillTwice(S, S1, CloseSession(S1, sid, None));
        assert !AllTaken(S, CloseSession(S1, sid, None)) by { Refused(S, S1, CloseSession(S1, sid, None)); }
      }
    }
  }

  lemma Refused(S: Srv, S1: Srv, S': Srv)
    requires S1.loop.tick == S.loop.tick + 1 && Still(S1, S') && !S.env.w.delivers(S.loop.tick)
    ensures !AllTaken(S, S')
  {
    assert Asked(S, S', S.loop.tick);
  }

  lemma {:induction false} AnnounceStill(S: Srv, sid: Sid, q: seq<Source>, mid: Mid)
    ensures Sends(S, AnnounceAll(S, sid, q, mid))
    decreases |q|
  {
    hide Send, Sends;
    NothingStill(S);
    if q != [] {
      var S1 := Send(S, sid, PeerJoined(q[0].sfu, mid));
      SendStill(S, sid, PeerJoined(q[0].sfu, mid));
      AnnounceStill(S1, sid, q[1..], mid + 1);
      SendsTwice(S, S1, AnnounceAll(S1, sid, q[1..], mid + 1));
    }
  }

  lemma NegotiateStill(S: Srv, sid: Sid)
    ensures Sends(S, MaybeNegotiate(S, sid))
  {
    hide Send, AnnounceAll, Fresh, AddSlots, Sends;
    NothingStill(S);
    if sid in S.table.sessions {
      var s := S.table.sessions[sid];
      var q := Fresh(s.tx.queued, Roster(S, s.callKey), s.tx.slots);
      if s.phase.Steady? && !s.tx.offerPending && s.tx.queued != [] {
        SetStill(S, sid, SetQueue(s, []));
        CrashStill(S);
        if q != [] && s.rtc.Some? {
          var mid := s.rtc.value.nextMid;
          var S1 := MarkDirty(SetSession(S, sid, Offered(s, q)), sid);
          var S2 := Send(S1, sid, Offer(Mids(mid, |q|)));
          SetStill(S, sid, Offered(s, q));
          SendStill(S1, sid, Offer(Mids(mid, |q|)));
          SendsTwice(S, S1, S2);
          AnnounceStill(S2, sid, q, mid);
          SendsTwice(S, S2, AnnounceAll(S2, sid, q, mid));
        }
      }
    }
  }

  /** A session that is made a new offer will be polled. */
  lemma NegotiateWakes(S: Srv, sid: Sid)
    requires sid in S.table.sessions && S.table.sessions[sid].phase.Steady? && !S.table.sessions[sid].tx.offerPending
    requires S.table.sessions[sid].rtc.Some? && S.table.sessions[sid].tx.queued != []
    requires var s := S.table.sessions[sid]; Fresh(s.tx.queued, Roster(S, s.callKey), s.tx.slots) != []
    ensures sid in MaybeNegotiate(S, sid).loop.dirty
  {
    hide Send, AnnounceAll, Fresh, AddSlots, Onward, Unmoved;
    var s := S.table.sessions[sid];
    var q, mid := Fresh(s.tx.queued, Roster(S, s.callKey), s.tx.slots), s.rtc.value.nextMid;
    var S1 := MarkDirty(SetSession(S, sid, Offered(s, q)), sid);
    var S2 := Send(S1, sid, Offer(Mids(mid, |q|)));
    SendStill(S1, sid, Offer(Mids(mid, |q|)));
    AnnounceStill(S2, sid, q, mid);
    assert MaybeNegotiate(S, sid) == AnnounceAll(S2, sid, q, mid) && sid in S1.loop.dirty;
  }

  lemma CrashStill(S: Srv)
    ensures Sends(S, Crash(S))
  {
  }

  lemma IntroduceStill(S: Srv, e: Sid, sid: Sid, sfu: SfuId)
    ensures Sends(S, Introduce(S, e, sid, sfu))
  {
    hide MaybeNegotiate, Sends;
    NothingStill(S);
    NegotiateStill(S, e);
    if e in S.table.sessions {
      var s := SetQueue(S.table.sessions[e], S.table.sessions[e].tx.queued + [Source(sid, sfu)]);
      SetStill(S, e, s);
      NegotiateStill(SetSession(S, e, s), e);
      SendsTwice(S, SetSession(S, e, s), Introduce(S, e, sid, sfu));
    }
  }

  lemma {:induction false} IntroduceAllStill(S: Srv, existing: seq<Source>, sid: Sid, sfu: SfuId)
    ensures Sends(S, IntroduceAll(S, existing, sid, sfu))
    decreases |existing|
  {
    hide Introduce, Sends;
    NothingStill(S);
    if existing != [] {
      var S1 := Introduce(S, existing[0].src, sid, sfu);
      IntroduceStill(S, existing[0].src, sid, sfu);
      IntroduceAllStill(S1, existing[1..], sid, sfu);
      SendsTwice(S, S1, IntroduceAll(S1, existing[1..], sid, sfu));
    }
  }

  /** Everything after the newcomer is on the roster only closes and sends. */
  lemma SeatStill(S: Srv, sid: Sid, key: CallKey)
    requires sid in S.table.sessions && key in S.table.calls
    ensures Sends(Admit(S, sid, key), Seat(S, sid, key))
  {
    hide Send, IntroduceAll, Listed, Sends, Admit;
    var S1 := Admit(S, sid, key);
    assert key in S1.table.calls by { AdmitTable(S, sid, key); }
    var existing := Listed(S1, S1.table.calls[key].participants, sid);
    var f := JoinAck(S1.loop.idCounter, S1.table.calls[key].cap, Names(existing));
    var S2 := Send(S1, sid, f);
    SendStill(S1, sid, f);
    CrashStill(S2);
    IntroduceAllStill(S2, existing, sid, S1.loop.idCounter);
    SendsTwice(S1, S2, Seat(S, sid, key));
  }

  lemma AdmitTable(S: Srv, sid: Sid, key: CallKey)
    requires sid in S.table.sessions && key in S.table.calls
    ensures key in Admit(S, sid, key).table.calls
  {
  }
}
