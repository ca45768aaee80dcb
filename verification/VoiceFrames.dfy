/** Who is told what: the frames a join, a refusal and a departure put on the channels, whichever channels take them. */
module VoiceFrames {
  import opened Basics
  import opened VoiceTypes
  import opened VoiceSpec
  import opened VoiceInvariant
  import VoiceClose
  import opened VoiceNegotiate
  import opened VoiceSend
  import opened VoiceJoin

  /** What comes of a frame put on a channel as question number `tick`. */
  function Heard(S: Srv, tick: nat, f: ServerFrame): seq<ServerFrame> { if S.env.w.delivers(tick) then [f] else [] }

  // ---- departures ---------------------------------------------------------------

  lemma ForgetOneTells(S: Srv, p: Sid, gone: Sid, sfu: SfuId)
    requires p in S.table.sessions
    ensures var S' := ForgetOne(S, p, gone, sfu);
            && S'.env == S.env && S'.loop.tick == S.loop.tick + 1 && S'.table.sessions.Keys == S.table.sessions.Keys
            && Log(S', p) == Log(S, p) + Heard(S, S.loop.tick, PeerLeft(sfu))
            && (forall t :: t != p ==> Log(S', t) == Log(S, t))
  {
    hide Forget;
  }

  lemma {:induction false} ForgetAllTells(S: Srv, rest: seq<Sid>, gone: Sid, sfu: SfuId)
    requires NoDup(rest) && forall p :: p in rest ==> p in S.table.sessions
    ensures var S' := ForgetAll(S, rest, gone, sfu);
            && (forall i :: 0 <= i < |rest| ==>
                  Log(S', rest[i]) == Log(S, rest[i]) + Heard(S, S.loop.tick + i, PeerLeft(sfu)))
            && (forall t :: t !in rest ==> Log(S', t) == Log(S, t))
    decreases |rest|
  {
    hide ForgetOne, Log, Heard;
    if rest != [] {
      var S1, tail := ForgetOne(S, rest[0], gone, sfu), rest[1..];
      assert rest == [rest[0]] + tail;
      ForgetOneTells(S, rest[0], gone, sfu);
      ForgetAllTells(S1, tail, gone, sfu);
      SameHearing(S, S1);
      var S' := ForgetAll(S1, tail, gone, sfu);
      forall i | 0 <= i < |rest|
        ensures Log(S', rest[i]) == Log(S, rest[i]) + Heard(S, S.loop.tick + i, PeerLeft(sfu))
      {
        if i > 0 { assert rest[i] == tail[i - 1]; }
      }
    }
  }

  /** The participants of the call a session is in, other than itself. */
  function Company(S: Srv, sid: Sid): seq<Sid>
    requires sid in S.table.sessions
  {
    Without(Roster(S, S.table.sessions[sid].callKey), sid)
  }

  /**
   * Closing asks the channels in this order: the closed session's for the final frame, then those of everybody left in
   * its call, once each, for the news that it left. Who takes it hears it, and nobody else hears anything.
   */
  lemma CloseTells(S: Srv, sid: Sid, final: Option<ServerFrame>)
    requires Inv(S) && sid in S.table.sessions
    ensures var S' := CloseSession(S, sid, final);
            var company, first := Company(S, sid), S.loop.tick + if final.Some? then 1 else 0;
            && Log(S', sid) == Log(S, sid) + (if final.Some? then Heard(S, S.loop.tick, final.value) else [])
            && (forall i :: 0 <= i < |company| ==>
                  Log(S', company[i])
                  == Log(S, company[i]) + Heard(S, first + i, PeerLeft(S.table.sessions[sid].sfuId)))
            && (forall t :: t != sid && t !in company ==> Log(S', t) == Log(S, t))
  {
    hide Inv, ForgetAll, SendFinal, NoDup, Heard, Log, Without, Unseat;
    var s := S.table.sessions[sid];
    var S1 := SendFinal(RemoveSession(S, sid), sid, final);
    FinalTells(S, sid, final);
    if s.callKey.Some? {
      var key, company := s.callKey.value, Company(S, sid);
      SeatOf(S, sid);
      UnseatTells(S1, key, sid);
      var S2 := Unseat(S1, key, sid);
      ForgetAllTells(S2, company, sid, s.sfuId);
      SameHearing(S, S2);
    }
  }

  lemma SeatOf(S: Srv, sid: Sid)
    requires Inv(S) && sid in S.table.sessions && S.table.sessions[sid].callKey.Some?
    ensures S.table.sessions[sid].callKey.value in S.table.calls
    ensures NoDup(Company(S, sid)) && forall p :: p in Company(S, sid) ==> p in S.table.sessions && p != sid
  {
    hide Mesh, NamesOk, TimersOk, LogsOk, SignalingOk, MediaOk;
    var s := S.table.sessions[sid];
    assert Seated(s, sid, S.table.calls, S.past.room);
    assert CallOk(S.table.sessions, s.callKey.value, S.table.calls[s.callKey.value]);
  }

  lemma UnseatTells(S: Srv, key: CallKey, gone: Sid)
    requires key in S.table.calls
    ensures var S' := Unseat(S, key, gone);
            && key in S'.table.calls
            && S'.table.calls[key].participants == Without(S.table.calls[key].participants, gone)
            && S'.table.sessions == S.table.sessions && S'.past == S.past && S'.env == S.env
            && (S'.table.calls[key].participants != [] ==> S'.loop == S.loop)
            && forall t :: Log(S', t) == Log(S, t)
  {
  }

  lemma SameHearing(S: Srv, S': Srv)
    requires S'.env == S.env
    ensures forall tick, f :: Heard(S', tick, f) == Heard(S, tick, f)
  {
  }

  lemma FinalTells(S: Srv, sid: Sid, final: Option<ServerFrame>)
    ensures var S1 := SendFinal(RemoveSession(S, sid), sid, final);
            && S1.env == S.env && S1.table == RemoveSession(S, sid).table
            && S1.loop.tick == S.loop.tick + (if final.Some? then 1 else 0)
            && Log(S1, sid) == Log(S, sid) + (if final.Some? then Heard(S, S.loop.tick, final.value) else [])
            && forall t :: t != sid ==> Log(S1, t) == Log(S, t)
  {
  }

  /** Why a join is turned away, if it is, in the order in which the reasons are looked for. */
  function Refusal(S: Srv, sid: Sid, token: seq<byte>): Option<ServerFrame>
    requires sid in S.table.sessions
  {
    var room := CallKey(S.table.sessions[sid].owner, S.env.w.hash(token));
    if S.table.sessions[sid].phase != AwaitingJoin then Some(Error(Protocol))
    else if |token| != 32 || room !in S.registry.slots then Some(Error(BadToken))
    else if room in S.table.calls then
      if |S.table.calls[room].participants| < S.table.calls[room].cap then None else Some(Full)
    else if |LiveCalls(S.table.calls)| < S.env.cfg.maxConcurrentCalls then None
    else Some(Error(Busy))
  }

  /**
   * A join is let in exactly when there is no reason against it; one that is not is gone, and the one thing put on its
   * channel is the reason.
   */
  lemma RefusalTells(S: Srv, sid: Sid, token: seq<byte>)
    requires Inv(S) && sid in S.table.sessions
    ensures Admitted(S, sid, token) <==> Refusal(S, sid, token).None?
    ensures var S', reason := HandleJoin(S, sid, token), Refusal(S, sid, token);
            reason.Some? ==>
              sid !in S'.table.sessions && Log(S', sid) == Log(S, sid) + Heard(S, S.loop.tick, reason.value)
  {
    hide Inv, CloseSession, Heard;
    var err := JoinError(S, sid, token);
    if !Admitted(S, sid, token) {
      if err.Some? {
        CloseTells(S, sid, Some(Error(err.value)));
        CloseGone(S, sid, Some(Error(err.value)));
      } else {
        var S1 := TrySend(S, sid, Full);
        FullKeeps(S, sid);
        CloseTells(S1, sid, None);
        CloseGone(S1, sid, None);
      }
    }
  }

  lemma CloseGone(S: Srv, sid: Sid, final: Option<ServerFrame>)
    requires Inv(S) && sid in S.table.sessions && (final.Some? ==> VoiceClose.Quiet(final.value))
    ensures sid !in CloseSession(S, sid, final).table.sessions
  {
    hide Rosters, Mesh, NamesOk, TimersOk, LogsOk, SignalingOk, MediaOk, CloseSession;
    InvSent(S, {}, {});
    VoiceClose.CloseEffect(S, sid, final, {}, {});
  }

  lemma FullKeeps(S: Srv, sid: Sid)
    requires Inv(S) && sid in S.table.sessions
    ensures var S1 := TrySend(S, sid, Full);
            Inv(S1) && S1.table == S.table && Log(S1, sid) == Log(S, sid) + Heard(S, S.loop.tick, Full)
  {
    hide Rosters, Mesh, NamesOk, TimersOk, LogsOk, SignalingOk, MediaOk;
    InvSent(S, {}, {});
    TrySendKeeps(S, sid, Full, {}, {});
  }

  // ---- what a departure leaves alone ---------------------------------------------------

  /** A log without the departures in it. */
  function Said(log: seq<ServerFrame>): seq<ServerFrame> {
    if log == [] then []
    else Said(log[..|log| - 1]) + if log[|log| - 1].PeerLeft? then [] else [log[|log| - 1]]
  }

  lemma SaidMore(log: seq<ServerFrame>, f: ServerFrame)
    ensures Said(log + [f]) == Said(log) + if f.PeerLeft? then [] else [f]
  {
    assert (log + [f])[..|log|] == log;
  }

  /** The same participant, perhaps with fewer sources. */
  ghost predicate Stays(s: Session, s': Session) {
    && s'.phase == s.phase && s'.rtc == s.rtc && s'.callKey == s.callKey && s'.sfuId == s.sfuId
    && s'.tx.offerPending == s.tx.offerPending && s'.tx.slots.Keys <= s.tx.slots.Keys
    && (s.tx.queued == [] ==> s'.tx.queued == [])
  }

  /**
   * Nobody but `e` is gone, nobody else has left a roster or joined one, and outside `heard` nobody was told anything.
   */
  ghost predicate Onlookers(S: Srv, S': Srv, e: Sid, heard: seq<Sid>) {
    && S'.env == S.env && S'.table.calls.Keys == S.table.calls.Keys
    && S'.table.sessions.Keys <= S.table.sessions.Keys && S.table.sessions.Keys - {e} <= S'.table.sessions.Keys
    && (forall t :: t in S'.table.sessions && t != e ==> Stays(S.table.sessions[t], S'.table.sessions[t]))
    && (forall k, x :: k in S.table.calls && x != e ==>
          (x in S'.table.calls[k].participants <==> x in S.table.calls[k].participants))
    && (forall t :: t != e ==> Said(Log(S', t)) == Said(Log(S, t)))
    && (forall t :: t != e && t !in heard ==> Log(S', t) == Log(S, t))
  }

  lemma {:induction false} ForgetAllSaid(S: Srv, rest: seq<Sid>, gone: Sid, sfu: SfuId)
    ensures var S' := ForgetAll(S, rest, gone, sfu);
            && S'.env == S.env && S'.table.calls == S.table.calls && S'.table.sessions.Keys == S.table.sessions.Keys
            && (forall t :: t in S.table.sessions ==> Stays(S.table.sessions[t], S'.table.sessions[t]))
            && (forall t :: Said(Log(S', t)) == Said(Log(S, t)))
            && (forall t :: t !in rest ==> Log(S', t) == Log(S, t))
    decreases |rest|
  {
    if rest != [] {
      var S1 := ForgetOne(S, rest[0], gone, sfu);
      ForgetOneSaid(S, rest[0], gone, sfu);
      hide ForgetOne, Said, Log;
      ForgetAllSaid(S1, rest[1..], gone, sfu);
      var S' := ForgetAll(S1, rest[1..], gone, sfu);
      forall t | t in S.table.sessions ensures Stays(S.table.sessions[t], S'.table.sessions[t]) {
        assert Stays(S.table.sessions[t], S1.table.sessions[t]) && Stays(S1.table.sessions[t], S'.table.sessions[t]);
      }
    }
  }

  lemma ForgetOneSaid(S: Srv, p: Sid, gone: Sid, sfu: SfuId)
    ensures var S' := ForgetOne(S, p, gone, sfu);
            && S'.env == S.env && S'.table.calls == S.table.calls && S'.table.sessions.Keys == S.table.sessions.Keys
            && (forall t :: t in S.table.sessions ==> Stays(S.table.sessions[t], S'.table.sessions[t]))
            && (forall t :: Said(Log(S', t)) == Said(Log(S, t)))
            && (forall t :: t != p ==> Log(S', t) == Log(S, t))
  {
    hide Said, Forget;
    SaidMore(Log(S, p), PeerLeft(sfu));
    if p in S.table.sessions { ForgetStays(S.table.sessions[p], gone); }
  }

  lemma ForgetStays(s: Session, gone: Sid)
    ensures Stays(s, Forget(s, gone))
  {
  }

  /** A session that is closed without a word takes nobody with it. */
  lemma CloseSaid(S: Srv, e: Sid)
    requires e in S.table.sessions
    ensures var S' := CloseSession(S, e, None);
            && Onlookers(S, S', e, Roster(S, S.table.sessions[e].callKey)) && e !in S'.table.sessions
            && Said(Log(S', e)) == Said(Log(S, e))
  {
    hide ForgetAll, Said, Without;
    var s := S.table.sessions[e];
    var S1 := RemoveSession(S, e);
    assert forall t :: Log(S1, t) == Log(S, t);
    if s.callKey.Some? && s.callKey.value in S.table.calls {
      var key := s.callKey.value;
      UnseatTells(S1, key, e);
      var S2 := Unseat(S1, key, e);
      ForgetAllSaid(S2, S2.table.calls[key].participants, e, s.sfuId);
      hide Log;
    }
  }

  // ---- arrivals ------------------------------------------------------------------------

  /** Negotiated, with no offer in flight. */
  predicate Idle(s: Session) { s.phase.Steady? && !s.tx.offerPending }

  /** A participant that can be introduced to `sid`: in the same call, and not knowing it yet. */
  ghost predicate Meets(S: Srv, e: Sid, sid: Sid, key: CallKey) {
    && e in S.table.sessions && S.table.sessions[e].callKey == Some(key) && S.table.sessions[e].rtc.Some?
    && key in S.table.calls && sid in S.table.calls[key].participants && sid !in S.table.sessions[e].tx.slots
    && (Idle(S.table.sessions[e]) ==> S.table.sessions[e].tx.queued == [])
  }

  /** What an introduction says to a session: the next m-line on offer, and whose it is. */
  function Introduction(S: Srv, e: Sid, sfu: SfuId): seq<ServerFrame> {
    if e in S.table.sessions && Idle(S.table.sessions[e]) && S.table.sessions[e].rtc.Some?
    then [Offer([S.table.sessions[e].rtc.value.nextMid]), PeerJoined(sfu, S.table.sessions[e].rtc.value.nextMid)]
    else []
  }

  /** Of what was to be said, `e` has heard a beginning, and all of it if it is still here. */
  ghost predicate ToldOrGone(S: Srv, S': Srv, e: Sid, said: seq<ServerFrame>) {
    && Said(Log(S, e)) <= Said(Log(S', e)) <= Said(Log(S, e)) + said
    && (e in S'.table.sessions ==> Said(Log(S', e)) == Said(Log(S, e)) + said)
  }

  lemma OfferOne(S: Srv, e: Sid, x: Source)
    requires e in S.table.sessions && S.table.sessions[e].rtc.Some? && Idle(S.table.sessions[e])
    requires S.table.sessions[e].tx.queued == [x]
    requires x.src in Roster(S, S.table.sessions[e].callKey) && x.src !in S.table.sessions[e].tx.slots
    ensures var mid := S.table.sessions[e].rtc.value.nextMid;
            var S2 := MarkDirty(SetSession(S, e, Offered(S.table.sessions[e], [x])), e);
            MaybeNegotiate(S, e) == Send(Send(S2, e, Offer([mid])), e, PeerJoined(x.sfu, mid))
  {
    hide AddSlots, Send, Offered;
    var s := S.table.sessions[e];
    var mid := s.rtc.value.nextMid;
    assert [x][1..] == [] && Fresh([x], Roster(S, s.callKey), s.tx.slots) == [x] && Mids(mid, 1) == [mid];
    var S3 := Send(MarkDirty(SetSession(S, e, Offered(s, [x])), e), e, Offer([mid]));
    assert AnnounceAll(S3, e, [x], mid) == AnnounceAll(Send(S3, e, PeerJoined(x.sfu, mid)), e, [], mid + 1);
  }

  /** A frame is taken, or its session is closed without a word. */
  lemma SendSaid(S: Srv, e: Sid, f: ServerFrame)
    requires e in S.table.sessions && !f.PeerLeft?
    ensures var S' := Send(S, e, f);
            && Onlookers(S, S', e, Roster(S, S.table.sessions[e].callKey))
            && (e in S'.table.sessions ==> S'.table == S.table && Log(S', e) == Log(S, e) + [f])
            && (e in S'.table.sessions ==> forall t :: t != e ==> Log(S', t) == Log(S, t))
            && Said(Log(S', e)) == Said(Log(S, e)) + if e in S'.table.sessions then [f] else []
  {
    hide CloseSession, Said;
    SaidMore(Log(S, e), f);
    if !S.env.w.delivers(S.loop.tick) {
      assert forall t :: Log(TrySend(S, e, f), t) == Log(S, t);
      CloseSaid(TrySend(S, e, f), e);
    }
  }

  lemma OnlookersTwice(S: Srv, S1: Srv, S2: Srv, e: Sid, heard: seq<Sid>, heard': seq<Sid>)
    requires Onlookers(S, S1, e, heard) && Onlookers(S1, S2, e, heard')
    requires forall t :: t in heard' && t != e ==> t in heard
    ensures Onlookers(S, S2, e, heard)
  {
    hide Said, Log;
    forall t | t in S2.table.sessions && t != e ensures Stays(S.table.sessions[t], S2.table.sessions[t]) {
      assert Stays(S.table.sessions[t], S1.table.sessions[t]) && Stays(S1.table.sessions[t], S2.table.sessions[t]);
    }
  }

  /** One introduction: whichever of its frames are taken, others only ever hear that somebody left. */
  lemma IntroduceSaid(S: Srv, e: Sid, sid: Sid, sfu: SfuId, key: CallKey)
    requires Meets(S, e, sid, key)
    ensures var S' := Introduce(S, e, sid, sfu);
            && Onlookers(S, S', e, S.table.calls[key].participants) && ToldOrGone(S, S', e, Introduction(S, e, sfu))
            && (e in S'.table.sessions ==>
                  Log(S', e) == Log(S, e) + Introduction(S, e, sfu) && forall t :: t != e ==> Log(S', t) == Log(S, t))
  {
    hide Said, Send, AddSlots, Fresh, Offered;
    var s := S.table.sessions[e];
    var x, roster := Source(sid, sfu), S.table.calls[key].participants;
    var s1 := SetQueue(s, s.tx.queued + [x]);
    var S1 := SetSession(S, e, s1);
    if Idle(s) {
      assert s1.tx.queued == [x];
      OfferOne(S1, e, x);
      hide MaybeNegotiate;
      var mid := s.rtc.value.nextMid;
      var S2 := MarkDirty(SetSession(S1, e, Offered(s1, [x])), e);
      Touched(S, S2, e, roster);
      hide Onlookers;
      SendSaid(S2, e, Offer([mid]));
      var S3 := Send(S2, e, Offer([mid]));
      assert S2.table.sessions[e].callKey == Some(key) by { OfferedSeat(s1, [x]); }
      OnlookersTwice(S, S2, S3, e, roster, Roster(S2, Some(key)));
      IntroduceRest(S, S3, e, sfu, key, mid);
    } else {
      Touched(S, S1, e, roster);
    }
  }

  lemma OfferedSeat(s: Session, q: seq<Source>)
    requires s.rtc.Some?
    ensures Offered(s, q).callKey == s.callKey
  {
  }

  /** Changing one session's record is nothing to the others. */
  lemma Touched(S: Srv, S': Srv, e: Sid, heard: seq<Sid>)
    requires e in S.table.sessions && e in S'.table.sessions && S'.env == S.env && S'.past == S.past
    requires S'.table == Table(S.table.sessions[e := S'.table.sessions[e]], S.table.calls)
    ensures Onlookers(S, S', e, heard) && forall t :: Log(S', t) == Log(S, t)
  {
    hide Said;
  }

  lemma NobodyNew(S: Srv, S': Srv, e: Sid, key: CallKey)
    requires key in S.table.calls && Onlookers(S, S', e, S.table.calls[key].participants)
    ensures forall t :: t in Roster(S', Some(key)) && t != e ==> t in S.table.calls[key].participants
  {
    hide Said, Log;
  }

  lemma NobodyToSend(S: Srv, e: Sid, f: ServerFrame)
    requires e !in S.table.sessions
    ensures Send(S, e, f) == S
  {
  }

  lemma IntroduceRest(S: Srv, S3: Srv, e: Sid, sfu: SfuId, key: CallKey, mid: Mid)
    requires key in S.table.calls && Onlookers(S, S3, e, S.table.calls[key].participants)
    requires Introduction(S, e, sfu) == [Offer([mid]), PeerJoined(sfu, mid)]
    requires e in S3.table.sessions ==>
               S3.table.sessions[e].callKey == Some(key) && Log(S3, e) == Log(S, e) + [Offer([mid])]
    requires e in S3.table.sessions ==> forall t :: t != e ==> Log(S3, t) == Log(S, t)
    requires Said(Log(S3, e)) == Said(Log(S, e)) + if e in S3.table.sessions then [Offer([mid])] else []
    ensures var S' := Send(S3, e, PeerJoined(sfu, mid));
            && Onlookers(S, S', e, S.table.calls[key].participants) && ToldOrGone(S, S', e, Introduction(S, e, sfu))
            && (e in S'.table.sessions ==>
                  Log(S', e) == Log(S, e) + Introduction(S, e, sfu) && forall t :: t != e ==> Log(S', t) == Log(S, t))
  {
    hide Said, Introduction, Send, Log, Onlookers;
    if e !in S3.table.sessions {
      NobodyToSend(S3, e, PeerJoined(sfu, mid));
    } else {
      var S' := Send(S3, e, PeerJoined(sfu, mid));
      SendSaid(S3, e, PeerJoined(sfu, mid));
      NobodyNew(S, S3, e, key);
      OnlookersTwice(S, S3, S', e, S.table.calls[key].participants, Roster(S3, Some(key)));
      assert [Offer([mid])] + [PeerJoined(sfu, mid)] == [Offer([mid]), PeerJoined(sfu, mid)];
      assert Log(S3, e) + [PeerJoined(sfu, mid)] == Log(S, e) + [Offer([mid]), PeerJoined(sfu, mid)];
      assert Said(Log(S, e)) + [Offer([mid])] + [PeerJoined(sfu, mid)]
             == Said(Log(S, e)) + [Offer([mid]), PeerJoined(sfu, mid)];
    }
  }

  /** Where a whole round of introductions leaves session `t`. */
  ghost predicate RoundDone(S: Srv, S': Srv, existing: seq<Source>, sfu: SfuId, key: CallKey, t: Sid)
    requires key in S.table.calls
  {
    && S'.table.sessions.Keys <= S.table.sessions.Keys
    && (if Sourced(existing, t) then ToldOrGone(S, S', t, Introduction(S, t, sfu))
        else Said(Log(S', t)) == Said(Log(S, t)) && (t in S.table.sessions ==> t in S'.table.sessions))
    && (!Sourced(existing, t) && t !in S.table.calls[key].participants ==> Log(S', t) == Log(S, t))
    && ((forall x :: x in existing ==> x.src in S'.table.sessions) ==>
          Log(S', t) == Log(S, t) + if Sourced(existing, t) then Introduction(S, t, sfu) else [])
  }

  lemma {:induction false} IntroduceAllSaid(S: Srv, existing: seq<Source>, sid: Sid, sfu: SfuId, key: CallKey, t: Sid)
    requires Distinct(existing) && key in S.table.calls
    requires forall x :: x in existing ==> x.src != sid && Meets(S, x.src, sid, key)
    ensures RoundDone(S, IntroduceAll(S, existing, sid, sfu), existing, sfu, key, t)
    decreases |existing|
  {
    hide Introduce, Introduction, Meets, Distinct, Log, Said, MaybeNegotiate, Sourced, ToldOrGone, RoundDone;
    if existing == [] {
      RoundNone(S, existing, sfu, key, t);
    } else {
      var S1 := Introduce(S, existing[0].src, sid, sfu);
      MeetsRest(S, existing, sid, sfu, key);
      IntroduceAllSaid(S1, existing[1..], sid, sfu, key, t);
      RoundMore(S, S1, IntroduceAll(S1, existing[1..], sid, sfu), existing, sid, sfu, key, t);
    }
  }

  lemma RoundNone(S: Srv, existing: seq<Source>, sfu: SfuId, key: CallKey, t: Sid)
    requires key in S.table.calls && existing == []
    ensures RoundDone(S, S, existing, sfu, key, t)
  {
  }

  /** After the first introduction the others can be introduced as before. */
  lemma MeetsRest(S: Srv, existing: seq<Source>, sid: Sid, sfu: SfuId, key: CallKey)
    requires existing != [] && Distinct(existing) && key in S.table.calls
    requires forall x :: x in existing ==> x.src != sid && Meets(S, x.src, sid, key)
    ensures var rest := existing[1..];
            var S1 := Introduce(S, existing[0].src, sid, sfu);
            && Distinct(rest) && key in S1.table.calls
            && forall x :: x in rest ==> x.src != sid && Meets(S1, x.src, sid, key)
  {
    hide Introduce, Introduction, Log, Said, ToldOrGone;
    var e, rest := existing[0].src, existing[1..];
    var S1 := Introduce(S, e, sid, sfu);
    assert existing[0] in existing && existing == [existing[0]] + rest;
    IntroduceSaid(S, e, sid, sfu, key);
    forall x | x in rest ensures x.src != sid && Meets(S1, x.src, sid, key) {
      assert x in existing && x.src != e && Meets(S, x.src, sid, key);
      assert Stays(S.table.sessions[x.src], S1.table.sessions[x.src]);
    }
  }

  lemma RoundMore(S: Srv, S1: Srv, S': Srv, existing: seq<Source>, sid: Sid, sfu: SfuId, key: CallKey, t: Sid)
    requires existing != [] && Distinct(existing) && key in S.table.calls && key in S1.table.calls
    requires Meets(S, existing[0].src, sid, key) && S1 == Introduce(S, existing[0].src, sid, sfu)
    requires RoundDone(S1, S', existing[1..], sfu, key, t)
    ensures RoundDone(S, S', existing, sfu, key, t)
  {
    hide Introduce, Introduction, Log, Said, Meets, Distinct, Sourced;
    var e, rest := existing[0].src, existing[1..];
    IntroduceSaid(S, e, sid, sfu, key);
    SourcedSplit(existing, t);
    FirstOnly(existing);
    assert existing == [existing[0]] + rest && existing[0] in existing;
    if t != e && t in S.table.sessions { SameIntroductions(S, S1, t, sfu); }
    if t != e && t !in S.table.sessions { NoIntroductions(S, S1, t, sfu); }
    assert (forall x :: x in existing ==> x.src in S'.table.sessions) ==> e in S'.table.sessions;
    assert Log(S, t) + [] == Log(S, t);
  }

  lemma FirstOnly(q: seq<Source>)
    requires q != [] && Distinct(q)
    ensures !Sourced(q[1..], q[0].src)
  {
    forall i | 0 <= i < |q[1..]| ensures q[1..][i].src != q[0].src { assert q[1..][i] == q[i + 1]; }
  }

  lemma SourcedSplit(q: seq<Source>, t: Sid)
    requires q != []
    ensures Sourced(q, t) <==> t == q[0].src || Sourced(q[1..], t)
  {
    if Sourced(q, t) { var i :| 0 <= i < |q| && q[i].src == t; assert i > 0 ==> q[1..][i - 1].src == t; }
    if Sourced(q[1..], t) { var i :| 0 <= i < |q| - 1 && q[1..][i].src == t; assert q[i + 1].src == t; }
  }

  lemma SameIntroductions(S: Srv, S': Srv, t: Sid, sfu: SfuId)
    requires t in S.table.sessions && t in S'.table.sessions && Stays(S.table.sessions[t], S'.table.sessions[t])
    ensures Introduction(S, t, sfu) == Introduction(S', t, sfu)
  {
  }

  lemma NoIntroductions(S: Srv, S': Srv, t: Sid, sfu: SfuId)
    requires t !in S.table.sessions && t !in S'.table.sessions
    ensures Introduction(S, t, sfu) == Introduction(S', t, sfu)
  {
  }

  // ---- the whole admission ----------------------------------------------------------------

  function NameOf(S: Srv, t: Sid): SfuId { if t in S.table.sessions then S.table.sessions[t].sfuId else 0 }

  function NamesOf(S: Srv, ts: seq<Sid>): seq<SfuId> { seq(|ts|, i requires 0 <= i < |ts| => NameOf(S, ts[i])) }

  lemma RosterHere(S: Srv, sid: Sid, key: CallKey)
    requires Admissible(S, sid, key)
    ensures var roster := S.table.calls[key].participants;
            NoDup(roster) && sid !in roster && (forall p :: p in roster ==> p in S.table.sessions)
  {
    hide TimersOk, LogsOk, SignalingOk, MediaOk, NamesOk, Mesh;
    assert CallOk(S.table.sessions, key, S.table.calls[key]) && PhaseOk(S.table.sessions[sid]);
  }

  lemma FreshName(S: Srv, sid: Sid, key: CallKey)
    requires Admissible(S, sid, key)
    ensures forall t :: t in S.table.sessions && S.table.sessions[t].callKey.Some? ==>
              NameOf(S, t) != S.loop.idCounter + 1
  {
    hide TimersOk, LogsOk, SignalingOk, MediaOk, Mesh, Rosters;
  }

  /**
   * An admitted join whose acknowledgement is taken (otherwise the loop is down). The newcomer gets a name nobody in a
   * call has and the names of those already there, in their order. Each of them that is idle and still here afterwards
   * was offered the newcomer's m-line and then told whose it is; one that is gone heard no more than the beginning of
   * that. Besides, the participants hear who left, and nobody else hears anything. If nobody was lost, that is all.
   */
  lemma SeatTells(S: Srv, sid: Sid, key: CallKey)
    requires Admissible(S, sid, key) && S.env.w.delivers(S.loop.tick)
    ensures var S' := Seat(S, sid, key);
            var name, roster := S.loop.idCounter + 1, S.table.calls[key].participants;
            var ack := JoinAck(name, S.table.calls[key].cap, NamesOf(S, roster));
            && (forall t :: t in S.table.sessions && S.table.sessions[t].callKey.Some? ==> NameOf(S, t) != name)
            && Said(Log(S', sid)) == Said(Log(S, sid)) + [ack]
            && (forall p :: p in roster ==> ToldOrGone(S, S', p, Introduction(S, p, name)))
            && (forall t :: t != sid && t !in roster ==> Log(S', t) == Log(S, t))
            && ((forall p :: p in roster ==> p in S'.table.sessions) ==>
                  && Log(S', sid) == Log(S, sid) + [ack]
                  && forall p :: p in roster ==> Log(S', p) == Log(S, p) + Introduction(S, p, name))
  {
    hide Inv, Introduction, IntroduceAll, Listed, NameOf, NamesOf, Names, Meets, Said, RoundDone, ToldOrGone, Log,
      Sourced;
    var name, roster := S.loop.idCounter + 1, S.table.calls[key].participants;
    var f := JoinAck(name, S.table.calls[key].cap, NamesOf(S, roster));
    FreshName(S, sid, key);
    var S2, existing := SeatAcked(S, sid, key);
    var S' := IntroduceAll(S2, existing, sid, name);
    forall t ensures RoundDone(S2, S', existing, name, key, t) { IntroduceAllSaid(S2, existing, sid, name, key, t); }
    SeatRound(S, S2, S', existing, sid, name, key, f);
  }

  /** Up to the acknowledgement: the newcomer is seated and told, and everybody else is as before. */
  lemma SeatAcked(S: Srv, sid: Sid, key: CallKey) returns (S2: Srv, existing: seq<Source>)
    requires Admissible(S, sid, key) && S.env.w.delivers(S.loop.tick)
    ensures var name, roster := S.loop.idCounter + 1, S.table.calls[key].participants;
            var ack := JoinAck(name, S.table.calls[key].cap, NamesOf(S, roster));
            && sid !in roster && key in S2.table.calls && S2.table.calls[key].participants == roster + [sid]
            && Seat(S, sid, key) == IntroduceAll(S2, existing, sid, name) && Distinct(existing)
            && (forall t :: Sourced(existing, t) <==> t in roster)
            && (forall x :: x in existing ==> x.src != sid && Meets(S2, x.src, sid, key))
            && (forall p :: p in roster ==>
                  p in S.table.sessions && p in S2.table.sessions && S2.table.sessions[p] == S.table.sessions[p])
            && (forall t :: t != sid ==> Log(S2, t) == Log(S, t))
            && Log(S2, sid) == Log(S, sid) + [ack] && Said(Log(S2, sid)) == Said(Log(S, sid)) + [ack]
  {
    hide Inv, IntroduceAll, Listed, NameOf, NamesOf, Names, Meets, Said;
    var S1 := Admit(S, sid, key);
    var roster := S.table.calls[key].participants;
    RosterHere(S, sid, key);
    assert S1.table.calls[key].participants == roster + [sid];
    ListedOthers(S1, roster, sid);
    existing := Listed(S1, roster + [sid], sid);
    AckNames(S, S1, roster, existing, sid);
    var f := JoinAck(S1.loop.idCounter, S1.table.calls[key].cap, Names(existing));
    S2 := Send(S1, sid, f);
    assert S2 == TrySend(S1, sid, f);
    SaidMore(Log(S, sid), f);
    forall x | x in existing ensures x.src != sid && Meets(S2, x.src, sid, key) {
      MeetsNewcomer(S, sid, key, x.src);
      MeetsStill(S1, S2, x.src, sid, key);
    }
    SourcedRoster(existing, roster);
  }

  lemma SourcedRoster(existing: seq<Source>, roster: seq<Sid>)
    requires |existing| == |roster| && forall i :: 0 <= i < |roster| ==> existing[i].src == roster[i]
    ensures forall t :: Sourced(existing, t) <==> t in roster
  {
    forall t | t in roster ensures Sourced(existing, t) {
      var i :| 0 <= i < |roster| && roster[i] == t;
      assert existing[i].src == t;
    }
  }

  /** The round of introductions, told from before the newcomer was seated. */
  lemma SeatRound(S: Srv, S2: Srv, S': Srv, existing: seq<Source>, sid: Sid, name: SfuId, key: CallKey, f: ServerFrame)
    requires key in S.table.calls && key in S2.table.calls && sid !in S.table.calls[key].participants
    requires S2.table.calls[key].participants == S.table.calls[key].participants + [sid]
    requires forall t :: Sourced(existing, t) <==> t in S.table.calls[key].participants
    requires forall t :: RoundDone(S2, S', existing, name, key, t)
    requires forall p :: p in S.table.calls[key].participants ==>
               p in S.table.sessions && p in S2.table.sessions && S2.table.sessions[p] == S.table.sessions[p]
    requires forall t :: t != sid ==> Log(S2, t) == Log(S, t)
    requires Log(S2, sid) == Log(S, sid) + [f] && Said(Log(S2, sid)) == Said(Log(S, sid)) + [f]
    ensures var roster := S.table.calls[key].participants;
            && Said(Log(S', sid)) == Said(Log(S, sid)) + [f]
            && (forall p :: p in roster ==> ToldOrGone(S, S', p, Introduction(S, p, name)))
            && (forall t :: t != sid && t !in roster ==> Log(S', t) == Log(S, t))
            && ((forall p :: p in roster ==> p in S'.table.sessions) ==>
                  && Log(S', sid) == Log(S, sid) + [f]
                  && forall p :: p in roster ==> Log(S', p) == Log(S, p) + Introduction(S, p, name))
  {
    hide Introduction, Said, Log;
    var roster := S.table.calls[key].participants;
    assert RoundDone(S2, S', existing, name, key, sid) && Log(S2, sid) + [] == Log(S2, sid);
    forall p | p in roster
      ensures Introduction(S2, p, name) == Introduction(S, p, name) && RoundDone(S2, S', existing, name, key, p)
    {
      SameIntroductions(S, S2, p, name);
    }
    forall t | t != sid && t !in roster
      ensures Log(S', t) == Log(S, t)
    {
      assert RoundDone(S2, S', existing, name, key, t);
    }
    if forall p :: p in roster ==> p in S'.table.sessions {
      forall x | x in existing ensures x.src in S'.table.sessions { SourcedBy(existing, x); }
    }
  }

  lemma SourcedBy(q: seq<Source>, x: Source)
    requires x in q
    ensures Sourced(q, x.src)
  {
  }

  lemma AckNames(S: Srv, S1: Srv, roster: seq<Sid>, existing: seq<Source>, sid: Sid)
    requires |existing| == |roster| && sid !in roster
    requires forall p :: p in roster ==>
               p in S.table.sessions && p in S1.table.sessions && S1.table.sessions[p] == S.table.sessions[p]
    requires forall i :: 0 <= i < |roster| ==>
               roster[i] in S1.table.sessions && existing[i] == Source(roster[i], S1.table.sessions[roster[i]].sfuId)
    ensures Names(existing) == NamesOf(S, roster)
  {
  }

  lemma MeetsStill(S: Srv, S': Srv, e: Sid, sid: Sid, key: CallKey)
    requires Meets(S, e, sid, key) && S'.table == S.table
    ensures Meets(S', e, sid, key)
  {
  }

  lemma MeetsNewcomer(S: Srv, sid: Sid, key: CallKey, e: Sid)
    requires Admissible(S, sid, key) && e in S.table.calls[key].participants
    ensures Meets(Admit(S, sid, key), e, sid, key)
  {
    hide TimersOk, LogsOk, SignalingOk, MediaOk, NamesOk;
    assert CallOk(S.table.sessions, key, S.table.calls[key]) && PhaseOk(S.table.sessions[sid]);
    var s := S.table.sessions[e];
    assert PhaseOk(s) && Apart(s, S.table.calls, e, {}) && AtRest(s, false);
    assert sid !in s.tx.slots;
  }

  /** The others of a roster whose last member is `sid`, in their order. */
  lemma {:induction false} ListedOthers(S: Srv, roster: seq<Sid>, sid: Sid)
    requires NoDup(roster) && sid !in roster && forall p :: p in roster ==> p in S.table.sessions
    ensures var r := Listed(S, roster + [sid], sid);
            && |r| == |roster| && Distinct(r)
            && forall i :: 0 <= i < |roster| ==> r[i] == Source(roster[i], S.table.sessions[roster[i]].sfuId)
    decreases |roster|
  {
    if roster == [] {
      assert roster + [sid] == [sid] && [sid][1..] == [];
    } else {
      var rest := roster[1..];
      assert (roster + [sid])[1..] == rest + [sid];
      ListedOthers(S, rest, sid);
      var r, tail := Listed(S, roster + [sid], sid), Listed(S, rest + [sid], sid);
      assert r == [Source(roster[0], S.table.sessions[roster[0]].sfuId)] + tail;
      forall i | 0 <= i < |tail| ensures tail[i].src != roster[0] { assert roster[i + 1] == rest[i]; }
    }
  }
}
