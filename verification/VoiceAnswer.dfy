/** The client's one offer, and its answers to the server's re-offers. */
module VoiceAnswer {
  import opened Basics
  import opened VoiceTypes
  import opened VoiceSpec
  import opened VoiceInvariant
  import opened VoiceClose
  import opened VoiceSwap
  import opened VoiceGone
  import opened VoiceSend
  import opened VoiceNegotiate
  import opened VoiceJoin

  // ---- the client's offer ------------------------------------------------------

  function Opened(s: Session, opusPt: Option<nat>): Session { s.(opusPt := opusPt, phase := Steady) }

  /** Once Steady, a session owes itself every peer it has not queued already. */
  ghost function OwnDebts(s: Session, cs: Calls, sid: Sid): Debts
    requires s.callKey.Some? && s.callKey.value in cs
  {
    set p | p in cs[s.callKey.value].participants && p != sid && !Queues(s, p) :: (sid, p)
  }

  lemma OpenedMesh(ss: Sessions, cs: Calls, sid: Sid, opusPt: Option<nat>)
    requires Mesh(ss, cs, {}, {}) && sid in ss && PhaseOk(ss[sid]) && ss[sid].phase.AwaitingOffer?
    requires ss[sid].callKey.Some? && ss[sid].callKey.value in cs
    ensures Mesh(ss[sid := Opened(ss[sid], opusPt)], cs, OwnDebts(ss[sid], cs, sid), {sid})
  {
    var s := ss[sid];
    var s' := Opened(s, opusPt);
    var ss' := ss[sid := s'];
    var owed := OwnDebts(s, cs, sid);
    assert Apart(s, cs, sid, {});
    assert forall p :: Peer(s', cs, sid, p) <==> Peer(s, cs, sid, p);
    assert forall p :: Queues(s', p) <==> Queues(s, p);
    forall t | t in ss' && t != sid
      ensures Apart(ss'[t], cs, t, owed) && Covers(ss'[t], cs, t, owed) && AtRest(ss'[t], t in {sid})
    {
      assert Apart(ss[t], cs, t, {}) && Covers(ss[t], cs, t, {}) && AtRest(ss[t], false);
      assert forall p :: (t, p) !in owed;
    }
  }

  lemma OpenedMedia(S: Srv, sid: Sid, opusPt: Option<nat>)
    requires Inv(S) && sid in S.table.sessions && S.table.sessions[sid].phase.AwaitingOffer?
    ensures MediaOk(S.table.sessions[sid := Opened(S.table.sessions[sid], opusPt)], S.past.streams, S.past.heard,
                    S.past.room, S.loop.nextSid)
  {
    hide Mesh, LogsOk, NamesOk, TimersOk, SignalingOk, Carries, StreamPast;
    var ss := S.table.sessions;
    var ss' := ss[sid := Opened(ss[sid], opusPt)];
    assert PhaseOk(ss[sid]);
    forall k | k in S.past.streams ensures StreamLive(k, S.past.streams[k], ss', S.past.heard) {
      assert StreamLive(k, S.past.streams[k], ss, S.past.heard);
      assert k.target != sid;
    }
  }

  lemma OpenedKeeps(S: Srv, sid: Sid, opusPt: Option<nat>)
    requires Inv(S) && sid in S.table.sessions && S.table.sessions[sid].phase.AwaitingOffer?
    ensures var s := S.table.sessions[sid];
            && s.callKey.Some? && s.callKey.value in S.table.calls && s.rtc.Some?
            && InvDuring(MarkDirty(SetSession(S, sid, Opened(s, opusPt)), sid), OwnDebts(s, S.table.calls, sid), {sid})
  {
    hide Rosters, Mesh, NamesOk, TimersOk, LogsOk, SignalingOk, MediaOk;
    var ss, s' := S.table.sessions, Opened(S.table.sessions[sid], opusPt);
    SeatedAt(S, sid, {}, {});
    QueuesAreNamed(S, sid, {}, {});
    QueueNamesMatch(ss, sid, S.loop.idCounter);
    OpenedMesh(ss, S.table.calls, sid, opusPt);
    SwapRosters(ss, S.table.calls, S.past.room, S.loop.nextSid, sid, s');
    SwapNames(ss, S.loop.idCounter, sid, s');
    OfferedTimers(ss, S.loop.dirty, sid, s');
    SwapSignaling(ss, S.past.sent, S.past.accepted, S.loop.idCounter, sid, s');
    OpenedMedia(S, sid, opusPt);
  }

  /** Replacing the queue by everybody else in the call settles the session's debts. */
  lemma ReplacedQueueKeeps(S: Srv, sid: Sid, owed: Debts)
    requires InvDuring(S, owed, {sid}) && sid in S.table.sessions && S.table.sessions[sid].tx.slots == map[]
    requires S.table.sessions[sid].callKey.Some?
    requires forall d :: d in owed ==> d.0 == sid
    ensures var s := S.table.sessions[sid];
            InvDuring(SetSession(S, sid, SetQueue(s, Listed(S, Roster(S, s.callKey), sid))), {}, {sid})
  {
    hide Rosters, NamesOk, LogsOk, SignalingOk, MediaOk, Mesh, TimersOk, Listed;
    var s := S.table.sessions[sid];
    var q := Listed(S, Roster(S, s.callKey), sid);
    SeatedAt(S, sid, owed, {sid});
    ListedEffect(S, Roster(S, s.callKey), sid);
    ReplacedMesh(S.table.sessions, S.table.calls, sid, q, owed);
    QueueOnly(S, sid, q, owed, {sid});
  }

  lemma ReplacedMesh(ss: Sessions, cs: Calls, sid: Sid, q: seq<Source>, owed: Debts)
    requires Mesh(ss, cs, owed, {sid}) && sid in ss && ss[sid].tx.slots == map[] && Distinct(q)
    requires ss[sid].callKey.Some? && ss[sid].callKey.value in cs
    requires CallOk(ss, ss[sid].callKey.value, cs[ss[sid].callKey.value])
    requires forall e :: e in q ==> e.src in cs[ss[sid].callKey.value].participants && e.src != sid
    requires forall p :: p in cs[ss[sid].callKey.value].participants && p != sid ==> Source(p, ss[p].sfuId) in q
    requires forall d :: d in owed ==> d.0 == sid
    ensures Mesh(ss[sid := SetQueue(ss[sid], q)], cs, {}, {sid})
  {
    var s' := SetQueue(ss[sid], q);
    var ss' := ss[sid := s'];
    assert AtRest(ss[sid], true);
    forall p | Peer(s', cs, sid, p) ensures Queues(s', p) { assert Source(p, ss[p].sfuId) in s'.tx.queued; }
    forall t | t in ss' && t != sid
      ensures Apart(ss'[t], cs, t, {}) && Covers(ss'[t], cs, t, {}) && AtRest(ss'[t], t in {sid})
    {
      assert Apart(ss[t], cs, t, owed) && Covers(ss[t], cs, t, owed) && AtRest(ss[t], t in {sid});
      assert forall p :: (t, p) !in owed;
    }
  }

  /** A delivered answer changes no record. */
  lemma AnswerSent(S: Srv, sid: Sid)
    requires sid in S.table.sessions && sid in Send(S, sid, Answer).table.sessions
    requires sid !in CloseSession(TrySend(S, sid, Answer), sid, None).table.sessions
    ensures Send(S, sid, Answer).table == S.table
  {
  }

  lemma HandleOfferKeeps(S: Srv, sid: Sid, offer: OfferSdp)
    requires Inv(S) && sid in S.table.sessions && !S.loop.crashed
    ensures Inv(HandleOffer(S, sid, offer)) && !HandleOffer(S, sid, offer).loop.crashed
  {
    hide Rosters, Mesh, NamesOk, TimersOk, LogsOk, SignalingOk, MediaOk, CloseSession, Listed, MaybeNegotiate, Send;
    var s := S.table.sessions[sid];
    CloseKeeps(S, sid, Some(Error(Protocol)), {}, {});
    if s.phase.AwaitingOffer? && offer.GoodOffer? {
      OpenedKeeps(S, sid, offer.opusPt);
      var owed := OwnDebts(s, S.table.calls, sid);
      var S1 := MarkDirty(SetSession(S, sid, Opened(s, offer.opusPt)), sid);
      var S2 := Send(S1, sid, Answer);
      SendKeeps(S1, sid, Answer, owed, {sid});
      if sid in S2.table.sessions {
        InvSent(S1, owed, {sid});
        TrySendKeeps(S1, sid, Answer, owed, {sid});
        CloseKeeps(TrySend(S1, sid, Answer), sid, None, owed, {sid});
        AnswerSent(S1, sid);
        SeatedAt(S, sid, {}, {});
        ReplacedQueueKeeps(S2, sid, owed);
        var s2 := SetQueue(S2.table.sessions[sid], Listed(S2, Roster(S2, s.callKey), sid));
        MaybeNegotiateKeeps(SetSession(S2, sid, s2), sid, {}, {sid});
      } else {
        Forgives(S2, owed, {}, {sid});
        MaybeNegotiateKeeps(S2, sid, {}, {sid});
      }
      assert {sid} - {sid} == {};
    } else if s.phase.AwaitingOffer? {
      SeatedAt(S, sid, {}, {});
    }
  }

  // ---- the client's answer -------------------------------------------------------

  /** `s` with the slots of sources below `n` declared. */
  ghost predicate DeclaredBelow(s: Session, s': Session, n: Sid) {
    && s' == s.(tx := s.tx.(slots := s'.tx.slots))
    && s'.tx.slots.Keys == s.tx.slots.Keys
    && forall p :: p in s.tx.slots && p < n ==> s'.tx.slots[p].declared
  }

  /** Declaring opens streams and nothing else. */
  lemma {:induction false} DeclareEffect(S: Srv, sid: Sid, n: Sid, mids: set<Mid>)
    requires sid in S.table.sessions
    ensures var S' := DeclareBelow(S, sid, n, mids);
            && sid in S'.table.sessions && DeclaredBelow(S.table.sessions[sid], S'.table.sessions[sid], n)
            && S' == S.(table := S.table.(sessions := S.table.sessions[sid := S'.table.sessions[sid]]),
                        past := S.past.(streams := S'.past.streams))
  {
    if n > 0 {
      DeclareEffect(S, sid, n - 1, mids);
      var S1 := DeclareBelow(S, sid, n - 1, mids);
      var S' := DeclareOne(S1, sid, n - 1, mids);
      assert S'.table.sessions == S.table.sessions[sid := S'.table.sessions[sid]];
    } else {
      assert S.table.sessions == S.table.sessions[sid := S.table.sessions[sid]];
    }
  }

  /** A session in its call, as far as opening a stream is concerned. */
  ghost predicate MayDeclare(S: Srv, sid: Sid) {
    && sid in S.table.sessions && S.table.sessions[sid].phase.Steady? && sid in S.past.room
    && forall p :: p in S.table.sessions[sid].tx.slots ==>
         && p != sid && p in S.table.sessions && p in S.past.heard
         && p in S.past.room && S.past.room[p] == S.past.room[sid]
  }

  lemma DeclareOneSlots(S: Srv, sid: Sid, src: Sid, mids: set<Mid>)
    requires MayDeclare(S, sid) && MediaOk(S.table.sessions, S.past.streams, S.past.heard, S.past.room, S.loop.nextSid)
    requires src in S.table.sessions[sid].tx.slots && !S.table.sessions[sid].tx.slots[src].declared
    ensures var S' := DeclareOne(S, sid, src, mids);
            var s' := S'.table.sessions[sid];
            && (forall p :: p in s'.tx.slots ==> SlotOk(s', sid, p, S'.past.streams))
            && SlotsDistinct(s')
            && StreamKey(sid, s'.tx.slots[src].ssrc) !in S.past.streams
  {
    hide StreamLive, StreamPast, SlotOk, SlotsDistinct;
    var s := S.table.sessions[sid];
    assert SlotsDistinct(s) && s.rtc.Some? && forall p :: p in s.tx.slots ==> SlotOk(s, sid, p, S.past.streams);
    var st := Stream(src, |HeardFrom(S, src)|, []);
    hide MediaOk;
    DeclaredSlots(s, sid, src, mids, S.past.streams, st);
  }

  lemma DeclaredSlots(s: Session, sid: Sid, src: Sid, mids: set<Mid>, streams: map<StreamKey, Stream>, st: Stream)
    requires s.rtc.Some? && src in s.tx.slots && !s.tx.slots[src].declared && st.source == src && SlotsDistinct(s)
    requires forall p :: p in s.tx.slots ==> SlotOk(s, sid, p, streams)
    ensures var slot := Adopt(s.tx.slots[src], mids);
            var s' := s.(tx := s.tx.(slots := s.tx.slots[src := slot]));
            && (forall p :: p in s'.tx.slots ==> SlotOk(s', sid, p, streams[StreamKey(sid, slot.ssrc) := st]))
            && SlotsDistinct(s') && StreamKey(sid, slot.ssrc) !in streams
  {
    var slot := Adopt(s.tx.slots[src], mids);
    var s' := s.(tx := s.tx.(slots := s.tx.slots[src := slot]));
    assert SlotOk(s, sid, src, streams);
    forall p | p in s'.tx.slots ensures SlotOk(s', sid, p, streams[StreamKey(sid, slot.ssrc) := st]) {
      assert SlotOk(s, sid, p, streams);
    }
  }

  lemma DeclareOneStreams(S: Srv, sid: Sid, src: Sid, mids: set<Mid>)
    requires MayDeclare(S, sid) && MediaOk(S.table.sessions, S.past.streams, S.past.heard, S.past.room, S.loop.nextSid)
    requires src in S.table.sessions[sid].tx.slots && !S.table.sessions[sid].tx.slots[src].declared
    ensures var S' := DeclareOne(S, sid, src, mids);
            forall k :: k in S'.past.streams ==>
              && StreamLive(k, S'.past.streams[k], S'.table.sessions, S'.past.heard)
              && StreamPast(k, S'.past.streams[k], S'.past.room, S'.past.heard)
  {
    hide SlotsDistinct;
    var s := S.table.sessions[sid];
    var S' := DeclareOne(S, sid, src, mids);
    assert SlotOk(s, sid, src, S.past.streams);
    forall k | k in S'.past.streams
      ensures StreamLive(k, S'.past.streams[k], S'.table.sessions, S'.past.heard)
      ensures StreamPast(k, S'.past.streams[k], S'.past.room, S'.past.heard)
    {
      if k in S.past.streams {
        assert StreamLive(k, S.past.streams[k], S.table.sessions, S.past.heard);
        assert StreamPast(k, S.past.streams[k], S.past.room, S.past.heard);
      }
    }
  }

  /** A new stream of one target is no business of another's slots. */
  lemma SlotElsewhere(s: Session, t: Sid, p: Sid, streams: map<StreamKey, Stream>, k: StreamKey, st: Stream)
    requires p in s.tx.slots && s.rtc.Some? && SlotOk(s, t, p, streams) && k.target != t
    ensures SlotOk(s, t, p, streams[k := st])
  {
  }

  lemma DeclareOneMedia(S: Srv, sid: Sid, src: Sid, mids: set<Mid>)
    requires MayDeclare(S, sid) && MediaOk(S.table.sessions, S.past.streams, S.past.heard, S.past.room, S.loop.nextSid)
    requires src in S.table.sessions[sid].tx.slots && !S.table.sessions[sid].tx.slots[src].declared
    ensures var S' := DeclareOne(S, sid, src, mids);
            MediaOk(S'.table.sessions, S'.past.streams, S'.past.heard, S'.past.room, S'.loop.nextSid)
  {
    DeclareOneSlots(S, sid, src, mids);
    DeclareOneStreams(S, sid, src, mids);
    hide StreamLive, StreamPast, SlotsDistinct, SlotOk, MayDeclare;
    var S' := DeclareOne(S, sid, src, mids);
    var ss, ss', streams := S.table.sessions, S'.table.sessions, S.past.streams;
    var k := StreamKey(sid, ss'[sid].tx.slots[src].ssrc);
    assert S'.past.streams == streams[k := S'.past.streams[k]];
    forall t, p | t in ss' && p in ss'[t].tx.slots ensures ss'[t].rtc.Some? && SlotOk(ss'[t], t, p, S'.past.streams) {
      if t != sid { SlotElsewhere(ss[t], t, p, streams, k, S'.past.streams[k]); }
    }
  }

  lemma DeclareOneMay(S: Srv, sid: Sid, src: Sid, mids: set<Mid>)
    requires MayDeclare(S, sid)
    ensures MayDeclare(DeclareOne(S, sid, src, mids), sid)
    ensures src !in S.table.sessions[sid].tx.slots || S.table.sessions[sid].tx.slots[src].declared ==>
              DeclareOne(S, sid, src, mids) == S
  {
  }

  lemma {:induction false} DeclareMedia(S: Srv, sid: Sid, n: Sid, mids: set<Mid>)
    requires MayDeclare(S, sid) && MediaOk(S.table.sessions, S.past.streams, S.past.heard, S.past.room, S.loop.nextSid)
    ensures var S' := DeclareBelow(S, sid, n, mids);
            && MayDeclare(S', sid)
            && MediaOk(S'.table.sessions, S'.past.streams, S'.past.heard, S'.past.room, S'.loop.nextSid)
  {
    hide MediaOk, DeclareOne;
    if n > 0 {
      DeclareMedia(S, sid, n - 1, mids);
      var S1 := DeclareBelow(S, sid, n - 1, mids);
      DeclareOneMay(S1, sid, n - 1, mids);
      DeclareEffect(S, sid, n - 1, mids);
      if n - 1 in S1.table.sessions[sid].tx.slots && !S1.table.sessions[sid].tx.slots[n - 1].declared {
        DeclareOneMedia(S1, sid, n - 1, mids);
      }
    }
  }

  lemma AnsweredMesh(ss: Sessions, cs: Calls, room: map<Sid, CallKey>, nextSid: Sid, sid: Sid, s: Session)
    requires Mesh(ss, cs, {}, {}) && Rosters(ss, cs, room, nextSid) && sid in ss
    requires DeclaredBelow(ss[sid].(tx := ss[sid].tx.(offerPending := false)), s, nextSid)
    ensures Mesh(ss[sid := s], cs, {}, {sid})
  {
    var ss' := ss[sid := s];
    assert Apart(ss[sid], cs, sid, {}) && Covers(ss[sid], cs, sid, {}) && Seated(ss[sid], sid, cs, room);
    assert forall p :: Peer(s, cs, sid, p) <==> Peer(ss[sid], cs, sid, p);
    assert forall p :: Queues(s, p) <==> Queues(ss[sid], p);
    forall p | p in s.tx.slots ensures s.tx.slots[p].declared {
      assert Peer(ss[sid], cs, sid, p) && CallOk(ss, ss[sid].callKey.value, cs[ss[sid].callKey.value]);
    }
  }

  /** The answer is counted, the offer no longer in flight. */
  lemma AnsweredSignaling(ss: Sessions, sent: map<Sid, seq<ServerFrame>>, accepted: map<Sid, nat>, idCounter: nat,
                          nextSid: Sid, sid: Sid, s: Session)
    requires SignalingOk(ss, sent, accepted, idCounter) && LogsOk(sent, accepted, nextSid) && sid in ss
    requires SameSeat(ss[sid], s)
    requires ss[sid].tx.offerPending && !s.tx.offerPending && ss[sid].tx.slots.Keys == s.tx.slots.Keys
    ensures SignalingOk(ss[sid := s], sent, accepted[sid := accepted[sid] + 1], idCounter)
    ensures LogsOk(sent, accepted[sid := accepted[sid] + 1], nextSid)
  {
    hide Told, LogOk;
    var ss' := ss[sid := s];
    forall t | t in ss' ensures ToldHaveSlots(ss', t, sent[t]) { assert ToldHaveSlots(ss, t, sent[t]); }
  }

  lemma SlotsMayDeclare(S: Srv, sid: Sid)
    requires Inv(S) && sid in S.table.sessions && S.table.sessions[sid].phase.Steady?
    ensures MayDeclare(S, sid)
  {
    hide NamesOk, TimersOk, LogsOk, SignalingOk, Covers, AtRest, StreamLive, StreamPast, SlotsDistinct;
    var s := S.table.sessions[sid];
    assert Seated(s, sid, S.table.calls, S.past.room) && Apart(s, S.table.calls, sid, {}) && PhaseOk(s);
    forall p | p in s.tx.slots
      ensures p != sid && p in S.table.sessions && p in S.past.heard && p in S.past.room
      ensures S.past.room[p] == S.past.room[sid]
    {
      assert Peer(s, S.table.calls, sid, p);
      assert CallOk(S.table.sessions, s.callKey.value, S.table.calls[s.callKey.value]);
      assert Seated(S.table.sessions[p], p, S.table.calls, S.past.room);
    }
  }

  /** The state when the accepted answer has been dealt with and the next negotiation may start. */
  function Answered(S: Srv, sid: Sid, mids: set<Mid>): Srv
    requires sid in S.table.sessions
  {
    var s := S.table.sessions[sid];
    DeclareBelow(CountAnswer(SetSession(S, sid, s.(tx := s.tx.(offerPending := false))), sid), sid, S.loop.nextSid,
                 mids)
  }

  lemma AnsweredEffect(S: Srv, sid: Sid, mids: set<Mid>)
    requires sid in S.table.sessions
    ensures var S' := Answered(S, sid, mids);
            var s := S.table.sessions[sid];
            && sid in S'.table.sessions
            && DeclaredBelow(s.(tx := s.tx.(offerPending := false)), S'.table.sessions[sid], S.loop.nextSid)
            && S'.table == S.table.(sessions := S.table.sessions[sid := S'.table.sessions[sid]])
            && S'.past.accepted == CountAnswer(S, sid).past.accepted
            && S' == S.(table := S'.table, past := S.past.(accepted := S'.past.accepted, streams := S'.past.streams))
  {
    hide DeclareBelow;
    var s := S.table.sessions[sid];
    var S1 := CountAnswer(SetSession(S, sid, s.(tx := s.tx.(offerPending := false))), sid);
    DeclareEffect(S1, sid, S.loop.nextSid, mids);
  }

  lemma AnsweredMedia(S: Srv, sid: Sid, mids: set<Mid>)
    requires Inv(S) && sid in S.table.sessions && S.table.sessions[sid].phase.Steady?
    ensures var S' := Answered(S, sid, mids);
            MediaOk(S'.table.sessions, S'.past.streams, S'.past.heard, S'.past.room, S'.loop.nextSid)
  {
    hide MediaOk, Rosters, Mesh, NamesOk, TimersOk, LogsOk, SignalingOk, DeclareBelow;
    var s := S.table.sessions[sid];
    var s1 := s.(tx := s.tx.(offerPending := false));
    var S1 := CountAnswer(SetSession(S, sid, s1), sid);
    SlotsMayDeclare(S, sid);
    SwapMedia(S.table.sessions, S.past.streams, S.past.heard, S.past.room, S.loop.nextSid, sid, s1);
    DeclareMedia(S1, sid, S.loop.nextSid, mids);
  }

  lemma AnsweredKeeps(S: Srv, sid: Sid, mids: set<Mid>)
    requires Inv(S) && sid in S.table.sessions && S.table.sessions[sid].phase.Steady?
    requires S.table.sessions[sid].tx.offerPending
    ensures InvDuring(MarkDirty(Answered(S, sid, mids), sid), {}, {sid})
  {
    hide MediaOk, Rosters, Mesh, NamesOk, TimersOk, LogsOk, SignalingOk, Answered;
    var S' := Answered(S, sid, mids);
    AnsweredEffect(S, sid, mids);
    AnsweredMedia(S, sid, mids);
    var ss, s' := S.table.sessions, S'.table.sessions[sid];
    SeatedAt(S, sid, {}, {});
    SignalingAt(S, sid, {}, {});
    QueuesAreNamed(S, sid, {}, {});
    QueueNamesMatch(ss, sid, S.loop.idCounter);
    AnsweredMesh(ss, S.table.calls, S.past.room, S.loop.nextSid, sid, s');
    SwapRosters(ss, S.table.calls, S.past.room, S.loop.nextSid, sid, s');
    SwapNames(ss, S.loop.idCounter, sid, s');
    OfferedTimers(ss, S.loop.dirty, sid, s');
    AnsweredSignaling(ss, S.past.sent, S.past.accepted, S.loop.idCounter, S.loop.nextSid, sid, s');
  }

  lemma HandleAnswerKeeps(S: Srv, sid: Sid, answer: AnswerSdp)
    requires Inv(S) && sid in S.table.sessions && !S.loop.crashed
    ensures Inv(HandleAnswer(S, sid, answer)) && !HandleAnswer(S, sid, answer).loop.crashed
  {
    hide Rosters, Mesh, NamesOk, TimersOk, LogsOk, SignalingOk, MediaOk, CloseSession, MaybeNegotiate, DeclareBelow;
    var s := S.table.sessions[sid];
    CloseKeeps(S, sid, Some(Error(Protocol)), {}, {});
    if s.phase.Steady? && s.tx.offerPending && !answer.BadAnswer? {
      SeatedAt(S, sid, {}, {});
      if answer.RefusedAnswer? {
        CloseSame(S, sid, s.(tx := s.tx.(offerPending := false)), Some(Error(Internal)));
        CloseKeeps(S, sid, Some(Error(Internal)), {}, {});
      } else {
        AnsweredKeeps(S, sid, answer.streams);
        AnsweredEffect(S, sid, answer.streams);
        MaybeNegotiateKeeps(MarkDirty(Answered(S, sid, answer.streams), sid), sid, {}, {sid});
        assert {sid} - {sid} == {};
      }
    }
  }

  lemma HandleIceKeeps(S: Srv, sid: Sid, parses: bool)
    requires Inv(S) && sid in S.table.sessions && !S.loop.crashed
    ensures Inv(HandleIce(S, sid, parses)) && !HandleIce(S, sid, parses).loop.crashed
  {
    hide Rosters, Mesh, NamesOk, TimersOk, LogsOk, SignalingOk, MediaOk, CloseSession;
    CloseKeeps(S, sid, Some(Error(Protocol)), {}, {});
    Idles(S, S.loop.dirty + [sid], S.loop.tick, {}, {});
  }
}
