/** What a client's frame may change, up to the draining that follows it. */
module VoiceDealt {
  import opened Basics
  import opened VoiceTypes
  import opened VoiceSpec
  import opened VoiceInvariant
  import opened VoiceSwap
  import opened VoiceJoin
  import opened VoiceAnswer
  import opened VoiceMedia
  import opened VoiceLoop
  import opened VoiceStill

  // ---- what a client's frame may change --------------------------------------------------------------

  /** The input is a join that is let in. */
  ghost predicate LetIn(S: Srv, input: Input) {
    && input.SessionFrame? && input.frame.Join? && input.sid in S.table.sessions
    && Admitted(S, input.sid, input.frame.token)
  }

  /** The input is the offer its session was to make, and a good one. */
  predicate TakesOffer(S: Srv, input: Input) {
    && input.SessionFrame? && input.frame.ClientOffer? && input.sid in S.table.sessions
    && S.table.sessions[input.sid].phase.AwaitingOffer? && input.frame.offer.GoodOffer?
  }

  /** The room a token names for a session. */
  function RoomOf(S: Srv, sid: Sid, token: seq<byte>): CallKey
    requires sid in S.table.sessions
  {
    CallKey(S.table.sessions[sid].owner, S.env.w.hash(token))
  }

  /** Who `t` is after an input, if it is still here. */
  ghost function NextWho(S: Srv, input: Input, t: Sid): Who
    requires t in S.table.sessions
  {
    var who := WhoIs(S.table.sessions[t]);
    if LetIn(S, input) && input.sid == t then
      who.(sfuId := S.loop.idCounter + 1, callKey := Some(RoomOf(S, t, input.frame.token)), phase := AwaitingOffer,
           hasRtc := true)
    else if TakesOffer(S, input) && input.sid == t then who.(phase := Steady, opusPt := input.frame.offer.opusPt)
    else who
  }

  /** The room somebody new is in. */
  ghost function Entered(S: Srv, input: Input): set<CallKey> {
    if LetIn(S, input) then {RoomOf(S, input.sid, input.frame.token)} else {}
  }

  /** A frame that costs its session the connection. */
  ghost predicate Expelled(S: Srv, sid: Sid, frame: ClientFrame)
    requires sid in S.table.sessions
  {
    var s := S.table.sessions[sid];
    match frame
    case Join(token) => !Admitted(S, sid, token)
    case ClientOffer(offer) => !s.phase.AwaitingOffer? || !offer.GoodOffer?
    case ClientAnswer(answer) => !s.phase.Steady? || !s.tx.offerPending || !answer.GoodAnswer?
    case Ice(_) => s.rtc.None?
    case ClientBye => true
  }

  /** The sessions an input sends away, whatever else happens. */
  ghost function Dismissed(S: Srv, input: Input): set<Sid> {
    match input
    case RegisterSlots(_, _) => {}
    case DropOwner(owner, _) => set t | t in S.table.sessions && S.table.sessions[t].owner == owner
    case OpenSession(_, _) => {}
    case SessionFrame(sid, frame) => if sid in S.table.sessions && Expelled(S, sid, frame) then {sid} else {}
    case SessionClosed(sid) => {sid}
    case PacketIn(route, events) => if route.Some? && events.None? then {route.value} else {}
    case Time(now, _, failing) =>
      set t | t in failing && t in S.table.sessions && S.table.sessions[t].rtc.Some?
              && S.table.sessions[t].nextTimeout.Some? && S.table.sessions[t].nextTimeout.value <= now
  }

  /** The calls after a frame: a new room has the cap its slot gives it, nothing else is new. */
  ghost predicate CallsDealt(S: Srv, input: Input, S': Srv) {
    && S'.table.calls.Keys == S.table.calls.Keys + Entered(S, input)
    && LiveCalls(S'.table.calls) <= LiveCalls(S.table.calls) + Entered(S, input)
    && (forall k :: k in S.table.calls ==>
          && S'.table.calls[k].cap == S.table.calls[k].cap
          && ClockFrom(S, S', S.table.calls[k].emptySince, S'.table.calls[k].emptySince)
          && (Vacant(S.table.sessions, k) && k !in Entered(S, input) ==> S'.table.calls[k] == S.table.calls[k]))
    && (forall k :: k in Entered(S, input) && k !in S.table.calls ==>
          && k in S.registry.slots
          && S'.table.calls[k].cap == EffectiveCap(S.registry.slots[k], S.env.cfg.maxParticipants))
  }

  /** What a frame of a client comes to, apart from who is lost on the way. */
  ghost predicate Dealt(S: Srv, input: Input, S': Srv) {
    && Later(S, S') && S'.registry == S.registry && S'.loop.nextSid == S.loop.nextSid
    && S'.past.arrived == S.past.arrived
    && (forall t :: t in S'.table.sessions ==>
          t in S.table.sessions && t !in Dismissed(S, input) && WhoIs(S'.table.sessions[t]) == NextWho(S, input, t))
    && SameTimers(S, S') && CallsDealt(S, input, S') && Grows(S.past.streams, S'.past.streams)
  }

  /** The input is a frame that gives its session's `Rtc` something to do. */
  ghost predicate Prods(S: Srv, input: Input) {
    && input.SessionFrame? && input.sid in S.table.sessions && !Expelled(S, input.sid, input.frame)
    && (input.frame.Ice? ==> input.frame.parses)
  }

  /** Nobody is lost but the dismissed, unless a frame is refused; an `Rtc` with something to do will be polled. */
  ghost predicate DealtTaken(S: Srv, input: Input, S': Srv) {
    && Dealt(S, input, S') && Unmoved(S, S') && S.loop.dirty <= S'.loop.dirty
    && (Prods(S, input) ==> input.sid in S'.loop.dirty)
    && (AllTaken(S, S') ==> S'.table.sessions.Keys == S.table.sessions.Keys - Dismissed(S, input))
  }

  lemma StillDealt(S: Srv, input: Input, S': Srv)
    requires Onward(S, S') && !LetIn(S, input) && !TakesOffer(S, input)
    requires S'.table.sessions.Keys <= S.table.sessions.Keys - Dismissed(S, input)
    ensures Dealt(S, input, S')
  {
  }

  lemma ClosedDealt(S: Srv, input: Input, S1: Srv, sid: Sid, final: Option<ServerFrame>)
    requires Still(S, S1) && S1.table.sessions.Keys == S.table.sessions.Keys
    requires !LetIn(S, input) && !TakesOffer(S, input) && Dismissed(S, input) == {sid} && !Prods(S, input)
    ensures DealtTaken(S, input, CloseSession(S1, sid, final))
  {
    hide Still, Onward, Dismissed, LetIn, TakesOffer, CloseSession, Prods;
    var S' := CloseSession(S1, sid, final);
    CloseStill(S1, sid, final);
    StillTwice(S, S1, S');
    assert Onward(S, S') && Unmoved(S, S') && S.loop.dirty <= S'.loop.dirty by { StillOnward(S, S'); }
    StillDealt(S, input, S');
  }

  lemma StillOnward(S: Srv, S': Srv)
    requires Still(S, S')
    ensures Onward(S, S') && Unmoved(S, S') && S.loop.dirty <= S'.loop.dirty && S'.past.streams == S.past.streams
  {
  }

  lemma DealtOn(S: Srv, input: Input, S1: Srv, S': Srv)
    requires Dealt(S, input, S1) && Onward(S1, S')
    ensures Dealt(S, input, S')
  {
    DealtCalls(S, input, S1, S');
    hide LetIn, TakesOffer, Dismissed, CallsDealt, SameCalls, SameTimers, Grows, NextWho;
    TimersTwice(S, S1, S');
    GrowsTwice(S.past.streams, S1.past.streams, S'.past.streams);
  }

  lemma GrowsTwice(a: map<StreamKey, Stream>, b: map<StreamKey, Stream>, c: map<StreamKey, Stream>)
    requires Grows(a, b) && Grows(b, c)
    ensures Grows(a, c)
  {
  }

  lemma DealtCalls(S: Srv, input: Input, S1: Srv, S': Srv)
    requires Dealt(S, input, S1) && Onward(S1, S')
    ensures CallsDealt(S, input, S')
  {
    hide LetIn, TakesOffer, Dismissed, SameTimers, Grows, SameSessions, NextWho, Vacant, ClockFrom, Entered;
    hide EffectiveCap;
    forall k | k in S.table.calls
      ensures ClockFrom(S, S', S.table.calls[k].emptySince, S'.table.calls[k].emptySince)
      ensures Vacant(S.table.sessions, k) && k !in Entered(S, input) ==> S'.table.calls[k] == S.table.calls[k]
    {
      ClockTwice(S, S1, S', S.table.calls[k].emptySince, S1.table.calls[k].emptySince, S'.table.calls[k].emptySince);
      if Vacant(S.table.sessions, k) && k !in Entered(S, input) { StaysVacant(S, input, S1, k); }
    }
  }

  lemma ClockTwice(S: Srv, S1: Srv, S2: Srv, a: Option<Instant>, b: Option<Instant>, c: Option<Instant>)
    requires Later(S, S1) && Later(S1, S2) && ClockFrom(S, S1, a, b) && ClockFrom(S1, S2, b, c)
    ensures ClockFrom(S, S2, a, c)
  {
  }

  lemma StaysVacant(S: Srv, input: Input, S1: Srv, k: CallKey)
    requires Dealt(S, input, S1) && Vacant(S.table.sessions, k) && k !in Entered(S, input)
    ensures Vacant(S1.table.sessions, k)
  {
    hide CallsDealt, SameTimers, Grows, Dismissed;
    forall t | t in S1.table.sessions ensures S1.table.sessions[t].callKey != Some(k) {
      assert WhoIs(S1.table.sessions[t]) == NextWho(S, input, t);
    }
  }

  lemma DealtSends(S: Srv, input: Input, S1: Srv, S': Srv)
    requires DealtTaken(S, input, S1) && Sends(S1, S')
    ensures DealtTaken(S, input, S')
  {
    DealtOn(S, input, S1, S');
    hide LetIn, TakesOffer, CallsDealt, SameTimers, SameCalls, Grows, Dismissed, SameSessions;
    if AllTaken(S, S') {
      forall n | Asked(S, S1, n) ensures S.env.w.delivers(n) { assert Asked(S, S', n); }
      forall n | Asked(S1, S', n) ensures S.env.w.delivers(n) { assert Asked(S, S', n); }
    }
  }

  /** The state just after the newcomer has its seat. */
  function Seated0(S: Srv, sid: Sid, token: seq<byte>): Srv
    requires sid in S.table.sessions && JoinError(S, sid, token).None?
  {
    var key := JoinKey(S, sid, token);
    Admit(if key in S.table.calls then S else NewCall(S, key), sid, key)
  }

  lemma AdmitSessions(S: Srv, sid: Sid, token: seq<byte>)
    requires Inv(S) && sid in S.table.sessions && Admitted(S, sid, token)
    ensures var input, S' := SessionFrame(sid, Join(token)), Seated0(S, sid, token);
            && Unmoved(S, S') && SameTimers(S, S') && S'.table.sessions.Keys == S.table.sessions.Keys
            && forall t :: t in S.table.sessions ==> WhoIs(S'.table.sessions[t]) == NextWho(S, input, t)
  {
    hide Standing, TimersOk, EffectiveCap, JoinError;
    assert S.table.sessions[sid].rtc.None? && S.table.sessions[sid].phase.AwaitingJoin? by {
      RecordAt(S, sid);
      Waits(S, sid, token);
    }
  }

  lemma Waits(S: Srv, sid: Sid, token: seq<byte>)
    requires sid in S.table.sessions && Admitted(S, sid, token)
    ensures S.table.sessions[sid].phase.AwaitingJoin?
  {
  }

  lemma SeatedCalls(S: Srv, sid: Sid, token: seq<byte>)
    requires sid in S.table.sessions && Admitted(S, sid, token)
    ensures var key, S' := RoomOf(S, sid, token), Seated0(S, sid, token);
            && key in S.registry.slots && key in S'.table.calls
            && S'.table.calls == S.table.calls[key := S'.table.calls[key]]
            && S'.table.calls[key].emptySince.None?
            && S'.table.calls[key].cap == if key in S.table.calls then S.table.calls[key].cap
                                          else EffectiveCap(S.registry.slots[key], S.env.cfg.maxParticipants)
  {
    hide EffectiveCap;
  }

  lemma AdmitCalls(S: Srv, sid: Sid, token: seq<byte>)
    requires sid in S.table.sessions && Admitted(S, sid, token)
    ensures CallsDealt(S, SessionFrame(sid, Join(token)), Seated0(S, sid, token))
  {
    hide Admitted, Seated0, EffectiveCap;
    SeatedCalls(S, sid, token);
    assert Entered(S, SessionFrame(sid, Join(token))) == {RoomOf(S, sid, token)};
  }

  lemma AdmitFrame(S: Srv, sid: Sid, token: seq<byte>)
    requires sid in S.table.sessions && Admitted(S, sid, token)
    ensures Dismissed(S, SessionFrame(sid, Join(token))) == {}
    ensures var S' := Seated0(S, sid, token);
            && Later(S, S') && S'.registry == S.registry && S'.loop.nextSid == S.loop.nextSid
            && S.loop.dirty <= S'.loop.dirty && sid in S'.loop.dirty
            && S'.past.arrived == S.past.arrived && Grows(S.past.streams, S'.past.streams)
  {
  }

  lemma AdmitDealt(S: Srv, sid: Sid, token: seq<byte>)
    requires Inv(S) && sid in S.table.sessions && Admitted(S, sid, token)
    ensures DealtTaken(S, SessionFrame(sid, Join(token)), Seated0(S, sid, token))
  {
    hide Inv, Admitted, JoinError, Unmoved, SameTimers, CallsDealt, NextWho, EffectiveCap, Dismissed, LetIn, Admit;
    hide Seated0, Later, Grows;
    AdmitSessions(S, sid, token);
    AdmitCalls(S, sid, token);
    AdmitFrame(S, sid, token);
  }

  lemma JoinDealt(S: Srv, sid: Sid, token: seq<byte>)
    requires Inv(S) && sid in S.table.sessions
    ensures DealtTaken(S, SessionFrame(sid, Join(token)), HandleJoin(S, sid, token))
  {
    hide Inv, CloseSession, Seat, DealtTaken, Still, Sends, Admit;
    var input, err := SessionFrame(sid, Join(token)), JoinError(S, sid, token);
    NothingStill(S);
    LoopStill(S, sid, Full);
    hide TrySend;
    if Admitted(S, sid, token) {
      AdmitDealt(S, sid, token);
      var key := JoinKey(S, sid, token);
      SeatStill(if key in S.table.calls then S else NewCall(S, key), sid, key);
      DealtSends(S, input, Seated0(S, sid, token), HandleJoin(S, sid, token));
    } else if err.Some? {
      StaysSame(S, S);
      ClosedDealt(S, input, S, sid, Some(Error(err.value)));
    } else {
      StaysSame(S, TrySend(S, sid, Full));
      ClosedDealt(S, input, TrySend(S, sid, Full), sid, None);
    }
  }

  lemma StaysSame(S: Srv, S': Srv)
    requires Sends(S, S')
    ensures Still(S, S')
  {
  }

  lemma OfferDealt(S: Srv, sid: Sid, offer: OfferSdp)
    requires Inv(S) && sid in S.table.sessions
    ensures DealtTaken(S, SessionFrame(sid, ClientOffer(offer)), HandleOffer(S, sid, offer))
  {
    hide Inv, CloseSession, Send, MaybeNegotiate, Listed, DealtTaken, Sends;
    var input, s := SessionFrame(sid, ClientOffer(offer)), S.table.sessions[sid];
    NothingStill(S);
    StaysSame(S, S);
    hide Still;
    assert s.phase.AwaitingOffer? ==> s.rtc.Some? && s.callKey.Some? by { InACall(S, sid); }
    if TakesOffer(S, input) {
      var S1 := MarkDirty(SetSession(S, sid, s.(opusPt := offer.opusPt, phase := Steady)), sid);
      TakenDealt(S, sid, offer);
      OpenedStill(S1, sid, s.callKey);
      DealtSends(S, input, S1, HandleOffer(S, sid, offer));
    } else {
      ClosedDealt(S, input, S, sid, Some(Error(Protocol)));
    }
  }

  lemma InACall(S: Srv, sid: Sid)
    requires Inv(S) && sid in S.table.sessions
    ensures var s := S.table.sessions[sid]; !s.phase.AwaitingJoin? ==> s.rtc.Some? && s.callKey.Some?
  {
    hide Mesh, NamesOk, LogsOk, SignalingOk, MediaOk, TimersOk, CallOk, Seated;
    assert PhaseOk(S.table.sessions[sid]);
  }

  lemma TakenDealt(S: Srv, sid: Sid, offer: OfferSdp)
    requires TakesOffer(S, SessionFrame(sid, ClientOffer(offer)))
    ensures var s1 := S.table.sessions[sid].(opusPt := offer.opusPt, phase := Steady);
            DealtTaken(S, SessionFrame(sid, ClientOffer(offer)), MarkDirty(SetSession(S, sid, s1), sid))
  {
    var s1 := S.table.sessions[sid].(opusPt := offer.opusPt, phase := Steady);
    assert SetSession(S, sid, s1).table.sessions.Keys == S.table.sessions.Keys;
  }

  lemma OpenedStill(S: Srv, sid: Sid, callKey: Option<CallKey>)
    ensures var S1 := Send(S, sid, Answer);
            var others := Listed(S1, Roster(S1, callKey), sid);
            var S2 := if sid in S1.table.sessions then SetSession(S1, sid, SetQueue(S1.table.sessions[sid], others))
                      else S1;
            Sends(S, MaybeNegotiate(S2, sid))
  {
    hide Send, MaybeNegotiate, Listed, Sends;
    var S1 := Send(S, sid, Answer);
    var others := Listed(S1, Roster(S1, callKey), sid);
    SendStill(S, sid, Answer);
    if sid in S1.table.sessions {
      var S2 := SetSession(S1, sid, SetQueue(S1.table.sessions[sid], others));
      SetStill(S1, sid, SetQueue(S1.table.sessions[sid], others));
      SendsTwice(S, S1, S2);
      NegotiateStill(S2, sid);
      SendsTwice(S, S2, MaybeNegotiate(S2, sid));
    } else {
      NegotiateStill(S1, sid);
      SendsTwice(S, S1, MaybeNegotiate(S1, sid));
    }
  }

  // ---- what opens and feeds streams ------------------------------------------------------------

  /** One slot declared: a stream more, under a key of its own. */
  lemma DeclareOneOnward(S: Srv, sid: Sid, src: Sid, mids: set<Mid>)
    requires MayDeclare(S, sid) && MediaOk(S.table.sessions, S.past.streams, S.past.heard, S.past.room, S.loop.nextSid)
    ensures Grows(S.past.streams, DeclareOne(S, sid, src, mids).past.streams)
  {
    hide MediaOk;
    var s := S.table.sessions[sid];
    if src in s.tx.slots && !s.tx.slots[src].declared { DeclareOneSlots(S, sid, src, mids); }
  }

  lemma {:induction false} DeclareGrows(S: Srv, sid: Sid, n: Sid, mids: set<Mid>)
    requires MayDeclare(S, sid) && MediaOk(S.table.sessions, S.past.streams, S.past.heard, S.past.room, S.loop.nextSid)
    ensures Grows(S.past.streams, DeclareBelow(S, sid, n, mids).past.streams)
  {
    hide MediaOk, MayDeclare, DeclareOne;
    if n > 0 {
      DeclareGrows(S, sid, n - 1, mids);
      DeclareMedia(S, sid, n - 1, mids);
      DeclareOneOnward(DeclareBelow(S, sid, n - 1, mids), sid, n - 1, mids);
    }
  }

  lemma AnsweredGrows(S: Srv, sid: Sid, mids: set<Mid>)
    requires Inv(S) && sid in S.table.sessions && S.table.sessions[sid].phase.Steady?
    ensures Grows(S.past.streams, Answered(S, sid, mids).past.streams)
  {
    hide Rosters, Mesh, NamesOk, LogsOk, SignalingOk, MediaOk, TimersOk, DeclareBelow;
    var s := S.table.sessions[sid];
    var s1 := s.(tx := s.tx.(offerPending := false));
    SlotsMayDeclare(S, sid);
    SwapMedia(S.table.sessions, S.past.streams, S.past.heard, S.past.room, S.loop.nextSid, sid, s1);
    DeclareGrows(CountAnswer(SetSession(S, sid, s1), sid), sid, S.loop.nextSid, mids);
  }

  lemma AnsweredDealt(S: Srv, sid: Sid, mids: set<Mid>)
    requires Inv(S) && sid in S.table.sessions && S.table.sessions[sid].phase.Steady?
    ensures var S' := MarkDirty(Answered(S, sid, mids), sid);
            && Onward(S, S') && Unmoved(S, S') && S.loop.dirty <= S'.loop.dirty
            && S'.table.sessions.Keys == S.table.sessions.Keys
  {
    hide Inv, Answered, Grows;
    AnsweredGrows(S, sid, mids);
    AnsweredEffect(S, sid, mids);
  }

  lemma AnswerDealt(S: Srv, sid: Sid, answer: AnswerSdp)
    requires Inv(S) && sid in S.table.sessions
    ensures DealtTaken(S, SessionFrame(sid, ClientAnswer(answer)), HandleAnswer(S, sid, answer))
  {
    hide Inv, CloseSession, MaybeNegotiate, DeclareBelow, DealtTaken, Onward, Unmoved;
    var input, s := SessionFrame(sid, ClientAnswer(answer)), S.table.sessions[sid];
    NothingStill(S);
    assert s.phase.Steady? ==> s.rtc.Some? by { InACall(S, sid); }
    if !Expelled(S, sid, ClientAnswer(answer)) {
      var S1 := MarkDirty(Answered(S, sid, answer.streams), sid);
      AnsweredDealt(S, sid, answer.streams);
      KeptDealt(S, input, S1);
      NegotiateStill(S1, sid);
      DealtSends(S, input, S1, MaybeNegotiate(S1, sid));
    } else if s.phase.Steady? && s.tx.offerPending && !answer.BadAnswer? {
      var s1 := s.(tx := s.tx.(offerPending := false));
      SetStill(S, sid, s1);
      ClosedDealt(S, input, SetSession(S, sid, s1), sid, Some(Error(Internal)));
    } else {
      ClosedDealt(S, input, S, sid, Some(Error(Protocol)));
    }
  }

  /** A frame that neither seats nor sends anybody away. */
  lemma KeptDealt(S: Srv, input: Input, S': Srv)
    requires Onward(S, S') && Unmoved(S, S') && S.loop.dirty <= S'.loop.dirty && Dismissed(S, input) == {}
    requires S'.table.sessions.Keys == S.table.sessions.Keys && !LetIn(S, input) && !TakesOffer(S, input)
    requires Prods(S, input) ==> input.sid in S'.loop.dirty
    ensures DealtTaken(S, input, S')
  {
    hide Onward, LetIn, TakesOffer, Dismissed, Prods;
    StillDealt(S, input, S');
  }

  lemma IceDealt(S: Srv, sid: Sid, parses: bool)
    requires sid in S.table.sessions
    ensures DealtTaken(S, SessionFrame(sid, Ice(parses)), HandleIce(S, sid, parses))
  {
    hide CloseSession, DealtTaken;
    var input := SessionFrame(sid, Ice(parses));
    NothingStill(S);
    LoopStill(S, sid, Full);
    if S.table.sessions[sid].rtc.None? {
      ClosedDealt(S, input, S, sid, Some(Error(Protocol)));
    } else {
      KeptDealt(S, input, HandleIce(S, sid, parses));
    }
  }

  /** What a frame comes to before anything is drained. */
  lemma DispatchDealt(S: Srv, sid: Sid, frame: ClientFrame)
    requires Inv(S) && sid in S.table.sessions
    ensures DealtTaken(S, SessionFrame(sid, frame), DispatchFrame(S, sid, frame))
  {
    hide Inv, HandleJoin, HandleOffer, HandleAnswer, HandleIce, CloseSession, DealtTaken;
    match frame
    case Join(token) => JoinDealt(S, sid, token);
    case ClientOffer(offer) => OfferDealt(S, sid, offer);
    case ClientAnswer(answer) => AnswerDealt(S, sid, answer);
    case Ice(parses) => IceDealt(S, sid, parses);
    case ClientBye => NothingStill(S); ClosedDealt(S, SessionFrame(sid, frame), S, sid, Some(Bye));
  }
}
