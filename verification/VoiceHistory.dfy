/**
 * What each input of the event loop changes, and nothing else: a session becomes somebody else only by its own join and
 * its own offer, and goes only when it is dismissed, does not take a frame, or its `Rtc` ends; a call keeps its cap.
 */
module VoiceHistory {
  import opened Basics
  import opened VoiceTypes
  import opened VoiceSpec
  import opened VoiceInvariant
  import opened VoiceMedia
  import opened VoiceLoop
  import opened VoiceStill
  import opened VoiceDealt

  // ---- draining ---------------------------------------------------------------------------------------

  /** Who has been written to will be polled. */
  ghost predicate WrittenAreDirty(S: Srv, S': Srv) {
    forall k :: k in S.past.streams && k in S'.past.streams && S'.past.streams[k] != S.past.streams[k] ==>
      k.target in S'.loop.dirty
  }

  lemma WrittenTwice(S: Srv, S1: Srv, S2: Srv)
    requires WrittenAreDirty(S, S1) && WrittenAreDirty(S1, S2) && Grows(S.past.streams, S1.past.streams)
    requires S1.loop.dirty <= S2.loop.dirty
    ensures WrittenAreDirty(S, S2)
  {
  }

  lemma {:induction false} FanOutGrows(S: Srv, targets: seq<Sid>, src: Sid, p: Packet)
    ensures var S' := FanOut(S, targets, src, p);
            && S' == S.(loop := S.loop.(dirty := S'.loop.dirty), past := S.past.(streams := S'.past.streams))
            && Grows(S.past.streams, S'.past.streams) && S.loop.dirty <= S'.loop.dirty
            && WrittenAreDirty(S, S')
    decreases |targets|
  {
    if targets != [] {
      var S1 := ForwardTo(S, targets[0], src, p);
      assert WrittenAreDirty(S, S1);
      FanOutGrows(S1, targets[1..], src, p);
      hide ForwardTo;
      WrittenTwice(S, S1, FanOut(S1, targets[1..], src, p));
    }
  }

  lemma {:induction false} ForwardAllGrows(S: Srv, src: Sid, ps: seq<Packet>)
    ensures var S' := ForwardAll(S, src, ps);
            && S' == S.(loop := S.loop.(dirty := S'.loop.dirty),
                        past := S.past.(streams := S'.past.streams, heard := S'.past.heard))
            && Grows(S.past.streams, S'.past.streams) && S.loop.dirty <= S'.loop.dirty
            && WrittenAreDirty(S, S')
    decreases |ps|
  {
    hide FanOut, Without;
    if ps != [] {
      var key := if src in S.table.sessions then S.table.sessions[src].callKey else None;
      FanOutGrows(S.(past := S.past.(heard := S.past.heard[src := HeardFrom(S, src) + [ps[0]]])),
                  Without(Roster(S, key), src), src, ps[0]);
      ForwardAllGrows(ForwardRtp(S, src, ps[0]), src, ps[1..]);
    }
  }

  /** Up to the end of the forwarding. */
  function Emptied(S: Srv, sid: Sid): Srv
    requires sid in S.table.sessions && S.table.sessions[sid].rtc.Some?
  {
    var poll, inbound := S.env.w.poll(S.loop.tick), S.table.sessions[sid].rtc.value.inbound;
    ForwardAll(SetSession(Ticked(S), sid, Polled(S.table.sessions[sid], poll)), sid, inbound[..Taken(poll, inbound)])
  }

  lemma EmptiedDrains(S: Srv, sid: Sid)
    requires sid in S.table.sessions && S.table.sessions[sid].rtc.Some?
    ensures var S' := Emptied(S, sid);
            && Onward(S, S') && S'.table.sessions.Keys == S.table.sessions.Keys && S.loop.tick < S'.loop.tick
            && S.loop.dirty <= S'.loop.dirty && WrittenAreDirty(S, S')
            && (forall t :: t in S'.table.sessions && t != sid ==>
                  Inbound(S'.table.sessions[t]) == Inbound(S.table.sessions[t]))
            && (!Closes(S.env.w.poll(S.loop.tick)) ==> Inbound(S'.table.sessions[sid]) == [])
  {
    hide ForwardAll;
    var poll, inbound := S.env.w.poll(S.loop.tick), S.table.sessions[sid].rtc.value.inbound;
    var S1 := SetSession(Ticked(S), sid, Polled(S.table.sessions[sid], poll));
    ForwardAllGrows(S1, sid, inbound[..Taken(poll, inbound)]);
    var S' := Emptied(S, sid);
    assert Asked(S, S', S.loop.tick);
    assert TimerFrom(S, S', S.table.sessions[sid].nextTimeout, S'.table.sessions[sid].nextTimeout);
  }

  lemma EmptiedGrows(S: Srv, sid: Sid)
    requires sid in S.table.sessions && S.table.sessions[sid].rtc.Some?
    ensures Grows(S.past.streams, Emptied(S, sid).past.streams)
  {
    EmptiedDrains(S, sid);
  }

  /**
   * One session drained: nothing waits there any more, nothing else of anybody's has moved, those written to are to be
   * drained next, and it is gone exactly when its poll says that the connection is over.
   */
  lemma DrainDrains(S: Srv, sid: Sid)
    ensures var S' := DrainSession(S, sid);
            && Drains(S, S') && S.loop.dirty <= S'.loop.dirty && WrittenAreDirty(S, S')
            && (forall t :: t in S'.table.sessions ==>
                  Inbound(S'.table.sessions[t]) == if t == sid then [] else Inbound(S.table.sessions[t]))
            && (sid in S.table.sessions && S.table.sessions[sid].rtc.Some? ==>
                  S'.table.sessions.Keys
                  == S.table.sessions.Keys - if Over(S.env.w.poll(S.loop.tick)) then {sid} else {})
  {
    hide CloseSession, ForwardAll, Onward, Still;
    NothingDrains(S);
    if sid in S.table.sessions && S.table.sessions[sid].rtc.Some? {
      var S1, S' := Emptied(S, sid), DrainSession(S, sid);
      EmptiedDrains(S, sid);
      if Closes(S.env.w.poll(S.loop.tick)) {
        CloseStill(S1, sid, None);
        StillOnward(S1, S');
        OnwardTwice(S, S1, S');
        EmptiedGrows(S, sid);
        WrittenTwice(S, S1, S');
        assert !Calm(S, S') by { OnwardLater(S1, S'); assert Asked(S, S', S.loop.tick); }
      }
    }
  }

  lemma NothingDrains(S: Srv)
    ensures Drains(S, S)
  {
  }

  lemma OnwardLater(S: Srv, S': Srv)
    requires Onward(S, S')
    ensures S.loop.tick <= S'.loop.tick
    ensures forall t :: t in S'.table.sessions ==> t in S.table.sessions
  {
  }

  /** Packets wait only at sessions on the work list. */
  ghost predicate Marked(S: Srv) {
    forall t :: t in S.table.sessions && Inbound(S.table.sessions[t]) != [] ==> t in S.loop.dirty
  }

  lemma PoppedDrains(S: Srv)
    requires S.loop.dirty != []
    ensures Drains(S, Popped(S))
  {
  }

  lemma {:induction false} DrainReadyDrains(S: Srv)
    ensures var S' := DrainReady(S);
            Drains(S, S') && S'.loop.dirty == [] && (Marked(S) ==> Marked(S'))
    decreases Backlog(S.table.sessions), |S.loop.dirty|
  {
    hide DrainSession, Drains;
    NothingDrains(S);
    if S.loop.dirty != [] {
      DrainProgress(S);
      var S1 := DrainSession(Popped(S), S.loop.dirty[0]);
      PoppedDrains(S);
      DrainDrains(Popped(S), S.loop.dirty[0]);
      DrainsTwice(S, Popped(S), S1);
      assert forall t :: t in S.loop.dirty <==> t == S.loop.dirty[0] || t in S.loop.dirty[1..];
      assert Marked(S) ==> Marked(S1) by { DrainsNobody(S, S1); }
      DrainReadyDrains(S1);
      DrainsTwice(S, S1, DrainReady(S1));
    }
  }

  lemma DrainsNobody(S: Srv, S': Srv)
    requires Drains(S, S')
    ensures forall t :: t in S'.table.sessions ==> t in S.table.sessions
  {
  }

  // ---- the other inputs ---------------------------------------------------------------------------------

  lemma {:induction false} CloseEachStill(S: Srv, order: seq<Sid>, final: Option<ServerFrame>)
    ensures var S' := CloseEach(S, order, final);
            Still(S, S') && S'.table.sessions.Keys == S.table.sessions.Keys - (set t | t in order)
    decreases |order|
  {
    hide CloseSession, Still;
    NothingStill(S);
    StaysSame(S, S);
    if order != [] {
      var S1 := CloseSession(S, order[0], final);
      CloseStill(S, order[0], final);
      CloseEachStill(S1, order[1..], final);
      StillTwice(S, S1, CloseEach(S1, order[1..], final));
      assert forall t :: t in order <==> t == order[0] || t in order[1..];
    }
  }

  lemma TimeOutOneStill(S: Srv, sid: Sid, failing: set<Sid>)
    ensures var S' := TimeOutOne(S, sid, failing);
            && Still(S, S')
            && S'.table.sessions.Keys
               == S.table.sessions.Keys - (set t | t in failing && t == sid && t in S.table.sessions
                                                   && S.table.sessions[t].rtc.Some?)
            && (sid in S'.table.sessions && S'.table.sessions[sid].rtc.Some? ==>
                  S'.table.sessions[sid].nextTimeout.None?)
  {
    hide CloseSession, Still;
    NothingStill(S);
    StaysSame(S, S);
    if sid in S.table.sessions && S.table.sessions[sid].rtc.Some? {
      var s := Disarmed(S.table.sessions[sid]);
      var S1 := SetSession(S, sid, s);
      SetStill(S, sid, s);
      StaysSame(S, S1);
      StaysSame(S, MarkDirty(S1, sid));
      if sid in failing {
        CloseStill(S1, sid, None);
        StillTwice(S, S1, CloseSession(S1, sid, None));
      }
    }
  }

  lemma StillWho(S: Srv, S': Srv)
    requires Still(S, S')
    ensures forall t :: t in S'.table.sessions ==>
              t in S.table.sessions && S'.table.sessions[t].rtc.Some? == S.table.sessions[t].rtc.Some?
    ensures SameTimers(S, S') && Later(S, S')
  {
    forall t | t in S'.table.sessions ensures S'.table.sessions[t].rtc.Some? == S.table.sessions[t].rtc.Some? {
      assert WhoIs(S'.table.sessions[t]) == WhoIs(S.table.sessions[t]);
    }
  }

  /** Off, or set by a poll on the way. */
  ghost predicate Rearmed(S: Srv, S': Srv, t: Sid) {
    t in S'.table.sessions && S'.table.sessions[t].rtc.Some? ==>
      TimerFrom(S, S', None, S'.table.sessions[t].nextTimeout)
  }

  lemma RearmedOn(S: Srv, S1: Srv, S': Srv, t: Sid)
    requires Later(S, S1) && Later(S1, S') && SameTimers(S1, S') && Rearmed(S, S1, t)
    requires t in S'.table.sessions ==>
               t in S1.table.sessions && S'.table.sessions[t].rtc.Some? == S1.table.sessions[t].rtc.Some?
    ensures Rearmed(S, S', t)
  {
    if t in S'.table.sessions && S'.table.sessions[t].rtc.Some? {
      assert TimerFrom(S1, S', S1.table.sessions[t].nextTimeout, S'.table.sessions[t].nextTimeout);
    }
  }

  lemma {:induction false} TimeOutEachStill(S: Srv, due: seq<Sid>, failing: set<Sid>)
    ensures var S' := TimeOutEach(S, due, failing);
            && Still(S, S') && (forall t :: t in due ==> Rearmed(S, S', t))
            && S'.table.sessions.Keys
               == S.table.sessions.Keys - (set t | t in failing && t in due && t in S.table.sessions
                                                   && S.table.sessions[t].rtc.Some?)
    decreases |due|
  {
    hide TimeOutOne, Still, Rearmed, Later, SameTimers;
    NothingStill(S);
    StaysSame(S, S);
    if due != [] {
      var S1 := TimeOutOne(S, due[0], failing);
      var S' := TimeOutEach(S1, due[1..], failing);
      TimeOutOneStill(S, due[0], failing);
      TimeOutEachStill(S1, due[1..], failing);
      StillTwice(S, S1, S');
      StillWho(S, S1);
      StillWho(S1, S');
      assert forall t :: t in due <==> t == due[0] || t in due[1..];
      assert Rearmed(S, S', due[0]) by { OffRearmed(S, S1, due[0]); RearmedOn(S, S1, S', due[0]); }
      forall t | t in due[1..] ensures Rearmed(S, S', t) { RearmedSooner(S, S1, S', t); }
    }
  }

  lemma OffRearmed(S: Srv, S': Srv, t: Sid)
    requires t in S'.table.sessions && S'.table.sessions[t].rtc.Some? ==> S'.table.sessions[t].nextTimeout.None?
    ensures Rearmed(S, S', t)
  {
  }

  lemma RearmedSooner(S: Srv, S1: Srv, S': Srv, t: Sid)
    requires Later(S, S1) && Later(S1, S') && Rearmed(S1, S', t)
    ensures Rearmed(S, S', t)
  {
  }

  // ---- one input -------------------------------------------------------------------------------------

  /** The session an input opens. */
  function Opened(S: Srv, input: Input): set<Sid> {
    if input.OpenSession? && input.callerWaits then {S.loop.nextSid} else {}
  }

  /** The packets an input brings for `t`. */
  function FedBy(input: Input, t: Sid): seq<Packet> {
    if input.PacketIn? && input.route == Some(t) && input.events.Some? then input.events.value else []
  }

  /** Who is here after an input: those who were, as `NextWho` says, and a newcomer with a blank record. */
  ghost predicate SessionsAfter(S: Srv, input: Input, S': Srv) {
    forall t :: t in S'.table.sessions ==>
      if t in S.table.sessions then t !in Dismissed(S, input) && WhoIs(S'.table.sessions[t]) == NextWho(S, input, t)
      else t in Opened(S, input) && S'.table.sessions[t] == NewSession(input.owner)
  }

  /** Nobody else is lost, unless a frame is refused or a poll ends a session. */
  ghost predicate NobodyElseLost(S: Srv, input: Input, S': Srv) {
    Calm(S, S') ==>
      S'.table.sessions.Keys == S.table.sessions.Keys - Dismissed(S, input) + Opened(S, input)
  }

  lemma DealtAfter(S: Srv, input: Input, S1: Srv, S': Srv)
    requires DealtTaken(S, input, S1) && Drains(S1, S') && input.SessionFrame?
    ensures Dealt(S, input, S') && SessionsAfter(S, input, S') && NobodyElseLost(S, input, S')
  {
    DealtOn(S, input, S1, S');
    hide LetIn, TakesOffer, CallsDealt, SameTimers, SameCalls, Grows, Dismissed, SameSessions;
    if Calm(S, S') {
      forall n | Asked(S, S1, n) ensures S.env.w.delivers(n) { assert Asked(S, S', n); }
      forall n | Asked(S1, S', n) ensures S.env.w.delivers(n) && !Over(S.env.w.poll(n)) { assert Asked(S, S', n); }
    }
  }

  lemma FrameAfter(S: Srv, sid: Sid, frame: ClientFrame)
    requires Inv(S) && sid in S.table.sessions
    ensures var input, S' := SessionFrame(sid, frame), HandleFrame(S, sid, frame);
            Dealt(S, input, S') && SessionsAfter(S, input, S') && NobodyElseLost(S, input, S')
  {
    hide Inv, DispatchFrame, DrainReady, DealtTaken, Drains, Dealt, SessionsAfter, NobodyElseLost;
    var S1 := DispatchFrame(S, sid, frame);
    DispatchDealt(S, sid, frame);
    NothingDrains(S1);
    DrainReadyDrains(S1);
    DealtAfter(S, SessionFrame(sid, frame), S1, HandleFrame(S, sid, frame));
  }

  /** An input that is no frame of a client and only closes sessions. */
  lemma ClosesAfter(S: Srv, input: Input, S': Srv)
    requires Onward(S, S') && !input.SessionFrame? && !input.OpenSession?
    requires S'.table.sessions.Keys <= S.table.sessions.Keys - Dismissed(S, input)
    requires Calm(S, S') ==> S'.table.sessions.Keys == S.table.sessions.Keys - Dismissed(S, input)
    ensures Dealt(S, input, S') && SessionsAfter(S, input, S') && NobodyElseLost(S, input, S')
  {
    hide Onward, Dismissed;
    assert SameSessions(S.table.sessions, S'.table.sessions) by { OnwardSessions(S, S'); }
    StillDealt(S, input, S');
  }

  lemma OnwardSessions(S: Srv, S': Srv)
    requires Onward(S, S')
    ensures SameSessions(S.table.sessions, S'.table.sessions)
  {
  }

  /** The calls of `ks`, with the same caps and those nobody is in untouched; no others, and none becomes live. */
  ghost predicate CallsKept(S: Srv, S': Srv, ks: set<CallKey>) {
    && S'.table.calls.Keys == ks && LiveCalls(S'.table.calls) <= LiveCalls(S.table.calls)
    && forall k :: k in ks ==>
         && k in S.table.calls && S'.table.calls[k].cap == S.table.calls[k].cap
         && ClockFrom(S, S', S.table.calls[k].emptySince, S'.table.calls[k].emptySince)
         && (Vacant(S.table.sessions, k) ==> S'.table.calls[k] == S.table.calls[k])
  }

  lemma OnwardCalls(S: Srv, S': Srv)
    requires Onward(S, S')
    ensures CallsKept(S, S', S.table.calls.Keys) && Forth(S, S') && Grows(S.past.streams, S'.past.streams)
  {
  }

  lemma DropAfter(S: Srv, owner: seq<byte>, order: seq<Sid>)
    requires Enumerates(order, SessionsOf(S, owner))
    ensures var input, S' := DropOwner(owner, order), HandleDrop(S, owner, order);
            && SessionsAfter(S, input, S') && S'.table.sessions.Keys == S.table.sessions.Keys - Dismissed(S, input)
            && CallsKept(S, S', set k | k in S.table.calls && k.owner != owner)
            && Grows(S.past.streams, S'.past.streams) && Later(S, S')
  {
    hide CloseEach, DropSlots, Onward;
    var S0 := S.(registry := Registry(DropSlots(S.registry.slots, owner)));
    var S1, S' := CloseEach(S0, order, Some(Bye)), HandleDrop(S, owner, order);
    CloseEachStill(S0, order, Some(Bye));
    assert Dismissed(S, DropOwner(owner, order)) == (set t | t in order);
    OnwardSessions(S0, S1);
    OnwardCalls(S0, S1);
    forall k | k in S'.table.calls
      ensures ClockFrom(S, S', S.table.calls[k].emptySince, S'.table.calls[k].emptySince)
    {
      assert ClockFrom(S0, S1, S.table.calls[k].emptySince, S1.table.calls[k].emptySince);
      assert forall n :: Asked(S, S', n) <==> Asked(S0, S1, n);
    }
  }

  lemma PacketAfter(S: Srv, route: Option<Sid>, events: Option<seq<Packet>>)
    requires Possible(S, PacketIn(route, events))
    ensures var input, S' := PacketIn(route, events), HandlePacket(S, route, events);
            && SessionsAfter(S, input, S') && S'.table.sessions.Keys == S.table.sessions.Keys - Dismissed(S, input)
            && CallsKept(S, S', S.table.calls.Keys) && Grows(S.past.streams, S'.past.streams) && Later(S, S')
  {
    hide CloseSession, Onward;
    if route.Some? && events.None? {
      CloseStill(S, route.value, None);
      OnwardSessions(S, CloseSession(S, route.value, None));
      OnwardCalls(S, CloseSession(S, route.value, None));
    }
  }

  lemma TimedAfter(S: Srv, now: Instant, due: seq<Sid>, failing: set<Sid>)
    requires Enumerates(due, DueSet(S, now))
    ensures var input, S' := Time(now, due, failing), DrainReady(TimeOutEach(S, due, failing));
            && Onward(S, S') && SessionsAfter(S, input, S') && NobodyElseLost(S, input, S') && S'.loop.dirty == []
            && (forall t :: t in DueSet(S, now) ==> Rearmed(S, S', t))
  {
    hide TimeOutEach, DrainReady, Onward, Rearmed, Still, Dismissed, SessionsAfter, NobodyElseLost;
    var input, S1 := Time(now, due, failing), TimeOutEach(S, due, failing);
    var S' := DrainReady(S1);
    TimeOutEachStill(S, due, failing);
    DrainReadyDrains(S1);
    StillOnward(S, S1);
    OnwardTwice(S, S1, S');
    TimedKeys(S, now, due, failing);
    CalmSooner(S, S1, S');
    OnwardLater(S1, S');
    ClosesAfter(S, input, S');
    forall t | t in DueSet(S, now) ensures Rearmed(S, S', t) {
      assert t in due;
      OnwardTimers(S, S1);
      OnwardTimers(S1, S');
      RearmedOn(S, S1, S', t);
    }
  }

  lemma OnwardTimers(S: Srv, S': Srv)
    requires Onward(S, S')
    ensures Later(S, S') && SameTimers(S, S')
    ensures forall t :: t in S'.table.sessions ==>
              t in S.table.sessions && S'.table.sessions[t].rtc.Some? == S.table.sessions[t].rtc.Some?
  {
    forall t | t in S'.table.sessions ensures S'.table.sessions[t].rtc.Some? == S.table.sessions[t].rtc.Some? {
      assert WhoIs(S'.table.sessions[t]) == WhoIs(S.table.sessions[t]);
    }
  }

  lemma TimedKeys(S: Srv, now: Instant, due: seq<Sid>, failing: set<Sid>)
    requires Enumerates(due, DueSet(S, now))
    ensures Dismissed(S, Time(now, due, failing))
            == set t | t in failing && t in due && t in S.table.sessions && S.table.sessions[t].rtc.Some?
  {
  }

  lemma CalmSooner(S: Srv, S1: Srv, S': Srv)
    requires Onward(S, S1)
    ensures Calm(S, S') ==> Calm(S1, S')
  {
    assert forall n :: Asked(S1, S', n) ==> Asked(S, S', n);
  }

  // ---- what one input changes -------------------------------------------------------------------------

  /** The calls an input discards outright; which ones a timer pass reaps is `ReapsExactly`. */
  function Discarded(S: Srv, input: Input): set<CallKey> {
    if input.DropOwner? then set k | k in S.table.calls && k.owner == input.owner else {}
  }

  /**
   * The calls after an input: one that was there has its cap, an idle clock that was read on the way if it is not the
   * old one, and is untouched if nobody was or comes in; a new one has the cap its slot gives it.
   */
  ghost predicate CallsAfter(S: Srv, input: Input, S': Srv) {
    && (forall k :: k in S'.table.calls && k in S.table.calls ==>
          && S'.table.calls[k].cap == S.table.calls[k].cap
          && ClockFrom(S, S', S.table.calls[k].emptySince, S'.table.calls[k].emptySince)
          && (Vacant(S.table.sessions, k) && k !in Entered(S, input) ==> S'.table.calls[k] == S.table.calls[k]))
    && (forall k :: k in S'.table.calls && k !in S.table.calls ==>
          && k in Entered(S, input) && k in S.registry.slots
          && S'.table.calls[k].cap == EffectiveCap(S.registry.slots[k], S.env.cfg.maxParticipants))
    && LiveCalls(S'.table.calls) <= LiveCalls(S.table.calls) + Entered(S, input)
    && (!input.Time? ==>
          S'.table.calls.Keys == S.table.calls.Keys - Discarded(S, input) + Entered(S, input))
  }

  lemma KeptCallsAfter(S: Srv, input: Input, S': Srv, ks: set<CallKey>)
    requires CallsKept(S, S', ks) && !input.SessionFrame?
    requires !input.Time? ==> ks == S.table.calls.Keys - Discarded(S, input)
    ensures CallsAfter(S, input, S')
  {
  }

  lemma DealtCallsAfter(S: Srv, input: Input, S': Srv)
    requires Dealt(S, input, S') && input.SessionFrame?
    ensures CallsAfter(S, input, S') && Later(S, S') && Grows(S.past.streams, S'.past.streams)
  {
    hide LetIn, Dismissed, SameTimers, Grows;
  }

  lemma ReapKept(S: Srv, S1: Srv, now: Instant)
    requires CallsKept(S, S1, S.table.calls.Keys)
    ensures CallsKept(S, Reap(S1, now), Reap(S1, now).table.calls.Keys)
  {
    var S' := Reap(S1, now);
    forall k | k in S'.table.calls
      ensures ClockFrom(S, S', S.table.calls[k].emptySince, S'.table.calls[k].emptySince)
    {
      assert ClockFrom(S, S1, S.table.calls[k].emptySince, S1.table.calls[k].emptySince);
      assert forall n :: Asked(S, S', n) <==> Asked(S, S1, n);
    }
  }

  lemma SameAfter(S: Srv, input: Input, S': Srv)
    requires S'.table == S.table && S'.env == S.env && S'.past == S.past && S'.loop == S.loop
    requires Dismissed(S, input) == {} && Opened(S, input) == {} && !LetIn(S, input) && !TakesOffer(S, input)
    ensures SessionsAfter(S, input, S') && NobodyElseLost(S, input, S')
    ensures CallsKept(S, S', S.table.calls.Keys) && Grows(S.past.streams, S'.past.streams) && Later(S, S')
  {
  }

  lemma OpenAfter(S: Srv, owner: seq<byte>, callerWaits: bool)
    requires S.loop.nextSid !in S.table.sessions
    ensures var input, S' := OpenSession(owner, callerWaits), HandleOpen(S, owner, callerWaits);
            && SessionsAfter(S, input, S') && S'.table.sessions.Keys == S.table.sessions.Keys + Opened(S, input)
            && CallsKept(S, S', S.table.calls.Keys) && Grows(S.past.streams, S'.past.streams) && Later(S, S')
  {
  }

  /**
   * One input: those who were here are who they were, except for an admitted join and a good offer; the dismissed are
   * gone; nobody else is, unless a frame is refused or a poll ends a session; calls keep their caps; streams grow.
   */
  lemma StepAfter(S: Srv, input: Input)
    requires Inv(S) && !S.loop.crashed && Possible(S, input)
    ensures var S' := Step(S, input);
            && SessionsAfter(S, input, S') && NobodyElseLost(S, input, S') && CallsAfter(S, input, S')
            && Grows(S.past.streams, S'.past.streams) && Later(S, S')
  {
    hide Inv, HandleFrame, HandleDrop, HandlePacket, HandleRegister, HandleOpen, CloseSession, DrainReady, TimeOutEach;
    hide SessionsAfter, NobodyElseLost, CallsKept, CallsAfter, Dealt, Onward, Grows, Later, Reap;
    var S' := Step(S, input);
    match input
    case RegisterSlots(owner, entries) =>
      RegisterSame(S, owner, entries);
      SameAfter(S, input, S');
      KeptCallsAfter(S, input, S', S.table.calls.Keys);
    case DropOwner(owner, order) => DropStep(S, owner, order);
    case OpenSession(owner, callerWaits) =>
      NextIsFree(S);
      OpenAfter(S, owner, callerWaits);
      LostNobody(S, input, S');
      KeptCallsAfter(S, input, S', S.table.calls.Keys);
    case SessionFrame(sid, frame) => FrameStep(S, sid, frame);
    case SessionClosed(sid) =>
      CloseStill(S, sid, None);
      StillOnward(S, S');
      ClosesAfter(S, input, S');
      OnwardCalls(S, S');
      KeptCallsAfter(S, input, S', S.table.calls.Keys);
    case PacketIn(route, events) =>
      PacketAfter(S, route, events);
      LostNobody(S, input, S');
      KeptCallsAfter(S, input, S', S.table.calls.Keys);
    case Time(now, due, failing) => TimeStep(S, now, due, failing);
  }

  lemma RegisterSame(S: Srv, owner: seq<byte>, entries: seq<SlotEntry>)
    ensures HandleRegister(S, owner, entries) == S.(registry := HandleRegister(S, owner, entries).registry)
  {
  }

  lemma LostNobody(S: Srv, input: Input, S': Srv)
    requires S'.table.sessions.Keys == S.table.sessions.Keys - Dismissed(S, input) + Opened(S, input)
    ensures NobodyElseLost(S, input, S')
  {
  }

  lemma DropStep(S: Srv, owner: seq<byte>, order: seq<Sid>)
    requires Enumerates(order, SessionsOf(S, owner))
    ensures var input, S' := DropOwner(owner, order), HandleDrop(S, owner, order);
            && SessionsAfter(S, input, S') && NobodyElseLost(S, input, S') && CallsAfter(S, input, S')
            && Grows(S.past.streams, S'.past.streams) && Later(S, S')
  {
    hide HandleDrop, SessionsAfter, NobodyElseLost, CallsAfter, CallsKept, Grows, Later, Dismissed;
    var input, S' := DropOwner(owner, order), HandleDrop(S, owner, order);
    DropAfter(S, owner, order);
    LostNobody(S, input, S');
    var ks := set k | k in S.table.calls && k.owner != owner;
    assert ks == S.table.calls.Keys - Discarded(S, input);
    KeptCallsAfter(S, input, S', ks);
  }

  lemma FrameStep(S: Srv, sid: Sid, frame: ClientFrame)
    requires Inv(S)
    ensures var input, S' := SessionFrame(sid, frame), HandleFrame(S, sid, frame);
            && SessionsAfter(S, input, S') && NobodyElseLost(S, input, S') && CallsAfter(S, input, S')
            && Grows(S.past.streams, S'.past.streams) && Later(S, S')
  {
    hide Inv, DispatchFrame, DrainReady, SessionsAfter, NobodyElseLost, CallsAfter, Dealt, Grows, Later;
    var input, S' := SessionFrame(sid, frame), HandleFrame(S, sid, frame);
    if sid in S.table.sessions {
      FrameAfter(S, sid, frame);
      DealtCallsAfter(S, input, S');
    } else {
      SameAfter(S, input, S');
      assert CallsAfter(S, input, S') by { NoFrameAfter(S, input, S'); }
    }
  }

  lemma NoFrameAfter(S: Srv, input: Input, S': Srv)
    requires CallsKept(S, S', S.table.calls.Keys) && !LetIn(S, input) && input.SessionFrame?
    ensures CallsAfter(S, input, S')
  {
  }

  lemma TimeStep(S: Srv, now: Instant, due: seq<Sid>, failing: set<Sid>)
    requires Enumerates(due, DueSet(S, now))
    ensures var input, S' := Time(now, due, failing), HandleTime(S, now, due, failing);
            && SessionsAfter(S, input, S') && NobodyElseLost(S, input, S') && CallsAfter(S, input, S')
            && Grows(S.past.streams, S'.past.streams) && Later(S, S')
  {
    hide TimeOutEach, DrainReady, Onward, CallsKept, CallsAfter, Rearmed, Reapable;
    var input, S1 := Time(now, due, failing), DrainReady(TimeOutEach(S, due, failing));
    TimedAfter(S, now, due, failing);
    OnwardCalls(S, S1);
    ReapKept(S, S1, now);
    var S' := Reap(S1, now);
    assert forall n :: Asked(S, S', n) <==> Asked(S, S1, n);
    KeptCallsAfter(S, input, S', S'.table.calls.Keys);
  }

  /** The slots after an input; what a push puts there is `VoiceTheorems.RegisterReplaces`. */
  ghost predicate SlotsAfter(S: Srv, input: Input, S': Srv) {
    if input.DropOwner? then
      && (forall k :: k in S'.registry.slots <==> k in S.registry.slots && k.owner != input.owner)
      && (forall k :: k in S'.registry.slots ==> S'.registry.slots[k] == S.registry.slots[k])
    else !input.RegisterSlots? ==> S'.registry == S.registry
  }

  /** The packets that have reached each session after an input. */
  ghost predicate ArrivedAfter(S: Srv, input: Input, S': Srv) {
    forall t :: t != S.loop.nextSid ==> ArrivedAt(S', t) == ArrivedAt(S, t) + FedBy(input, t)
  }

  function NextSidAfter(S: Srv, input: Input): Sid {
    if input.OpenSession? then S.loop.nextSid + 1 else S.loop.nextSid
  }

  /** One input: slots change only by a push or a drop, ids are handed out in turn, and packets come from datagrams. */
  lemma StepRest(S: Srv, input: Input)
    requires Inv(S) && !S.loop.crashed && Possible(S, input)
    ensures var S' := Step(S, input);
            SlotsAfter(S, input, S') && ArrivedAfter(S, input, S') && S'.loop.nextSid == NextSidAfter(S, input)
  {
    hide Inv, DispatchFrame, CloseSession, CloseEach, DrainReady, TimeOutEach, Onward, InsertSlots;
    assert forall ps: seq<Packet> :: ps + [] == ps;
    match input
    case RegisterSlots(owner, entries) =>
    case DropOwner(owner, order) =>
      var S0 := S.(registry := Registry(DropSlots(S.registry.slots, owner)));
      CloseEachStill(S0, order, Some(Bye));
      OnwardCalls(S0, CloseEach(S0, order, Some(Bye)));
    case OpenSession(owner, callerWaits) =>
    case SessionFrame(sid, frame) => if sid in S.table.sessions { FrameAfter(S, sid, frame); }
    case SessionClosed(sid) => CloseStill(S, sid, None); OnwardCalls(S, CloseSession(S, sid, None));
    case PacketIn(route, events) =>
      if route.Some? && events.None? {
        CloseStill(S, route.value, None);
        OnwardCalls(S, CloseSession(S, route.value, None));
      }
    case Time(now, due, failing) =>
      TimedAfter(S, now, due, failing);
      OnwardCalls(S, DrainReady(TimeOutEach(S, due, failing)));
  }

  /** What these say about live calls. */
  lemma LiveAfter(S: Srv, input: Input, S': Srv)
    ensures Drains(S, S') ==> S'.env == S.env && LiveCalls(S'.table.calls) <= LiveCalls(S.table.calls)
    ensures DealtTaken(S, input, S') || (CallsAfter(S, input, S') && Later(S, S')) ==>
              S'.env == S.env && LiveCalls(S'.table.calls) <= LiveCalls(S.table.calls) + Entered(S, input)
  {
  }

  // ---- the timer pass ---------------------------------------------------------------------------------

  lemma EmptyIsVacant(S: Srv, k: CallKey)
    requires Inv(S) && k in S.table.calls && S.table.calls[k].participants == []
    ensures Vacant(S.table.sessions, k)
  {
    hide Mesh, NamesOk, LogsOk, SignalingOk, MediaOk, TimersOk, PhaseOk, CallOk;
    forall t | t in S.table.sessions ensures S.table.sessions[t].callKey != Some(k) {
      assert Seated(S.table.sessions[t], t, S.table.calls, S.past.room);
    }
  }

  /** A call that is empty when the pass begins goes exactly when its time is up, and is untouched otherwise. */
  lemma EmptyCallGoes(S: Srv, now: Instant, due: seq<Sid>, failing: set<Sid>, k: CallKey)
    requires Inv(S) && Possible(S, Time(now, due, failing)) && k in S.table.calls && S.table.calls[k].participants == []
    ensures var S' := HandleTime(S, now, due, failing);
            if Overdue(S.table.calls[k], now, S.env.cfg.idleReap) then k !in S'.table.calls
            else k in S'.table.calls && S'.table.calls[k] == S.table.calls[k]
  {
    hide Inv, DrainReady, TimeOutEach, Onward, Rearmed, Reap;
    TimeKeeps(S, now, due, failing);
    TimedAfter(S, now, due, failing);
    EmptyIsVacant(S, k);
    OnwardCalls(S, DrainReady(TimeOutEach(S, due, failing)));
  }

  /** Every session whose timer was due is polled: what timer it has afterwards, a poll of this pass has set. */
  lemma DueArePolled(S: Srv, now: Instant, due: seq<Sid>, failing: set<Sid>, t: Sid)
    requires Inv(S) && Possible(S, Time(now, due, failing)) && t in S.table.sessions && S.table.sessions[t].rtc.Some?
    requires S.table.sessions[t].nextTimeout.Some? && S.table.sessions[t].nextTimeout.value <= now
    ensures var S' := HandleTime(S, now, due, failing);
            t in S'.table.sessions ==>
              && t !in failing && S'.table.sessions[t].nextTimeout.Some?
              && exists n :: Asked(S, S', n)
                             && S.env.w.poll(n).end == PollEnd.Idle(S'.table.sessions[t].nextTimeout.value)
  {
    hide Inv, DrainReady, TimeOutEach, Onward;
    var S1, S' := DrainReady(TimeOutEach(S, due, failing)), HandleTime(S, now, due, failing);
    TimedAfter(S, now, due, failing);
    TimeKeeps(S, now, due, failing);
    OnwardTimers(S, S1);
    if t in S'.table.sessions {
      assert Rearmed(S, S1, t) && S1.table.sessions == S'.table.sessions && t !in Dismissed(S, Time(now, due, failing));
      var n :| Asked(S, S1, n) && S.env.w.poll(n).end == PollEnd.Idle(S'.table.sessions[t].nextTimeout.value);
      assert Asked(S, S', n);
    }
  }

  // ---- whole runs -----------------------------------------------------------------------------------------

  /** Along every run each stream keeps its source and its start, and what it carried stays carried. */
  lemma {:induction false} StreamsOnlyGrow(S: Srv, inputs: seq<Input>)
    requires Inv(S) && !S.loop.crashed && PossibleRun(S, inputs)
    ensures Grows(S.past.streams, Run(S, inputs).past.streams)
    decreases |inputs|
  {
    hide Inv, Step, Possible, SessionsAfter, CallsAfter, NobodyElseLost;
    if inputs != [] {
      StepKeeps(S, inputs[0]);
      StepAfter(S, inputs[0]);
      var S1 := Step(S, inputs[0]);
      if !S1.loop.crashed { StreamsOnlyGrow(S1, inputs[1..]); }
    }
  }

  /** Somebody who has gone does not come back. */
  lemma {:induction false} GoneForGood(S: Srv, inputs: seq<Input>, t: Sid)
    requires Inv(S) && !S.loop.crashed && PossibleRun(S, inputs) && t !in S.table.sessions && t < S.loop.nextSid
    ensures t !in Run(S, inputs).table.sessions
    decreases |inputs|
  {
    hide Inv, Step, Possible, CallsAfter, NobodyElseLost, NextWho, Dismissed, SlotsAfter, ArrivedAfter;
    if inputs != [] {
      StepKeeps(S, inputs[0]);
      StepAfter(S, inputs[0]);
      StepRest(S, inputs[0]);
      var S1 := Step(S, inputs[0]);
      if !S1.loop.crashed { GoneForGood(S1, inputs[1..], t); }
    }
  }

  /** The payload type `t` has after a run: that of the last good offer it made when it was to make one. */
  function OfferedPt(S: Srv, inputs: seq<Input>, t: Sid, pt: Option<nat>): Option<nat>
    decreases |inputs|
  {
    if inputs == [] || S.loop.crashed then pt
    else
      OfferedPt(Step(S, inputs[0]), inputs[1..], t,
                if TakesOffer(S, inputs[0]) && inputs[0].sid == t then inputs[0].frame.offer.opusPt else pt)
  }

  /** A session's payload type is the one it offered, along every run, whatever else happens. */
  lemma {:induction false} PtIsTheOffered(S: Srv, inputs: seq<Input>, t: Sid)
    requires Inv(S) && !S.loop.crashed && PossibleRun(S, inputs) && t in Run(S, inputs).table.sessions
    ensures var pt := if t in S.table.sessions then S.table.sessions[t].opusPt else None;
            Run(S, inputs).table.sessions[t].opusPt == OfferedPt(S, inputs, t, pt)
    decreases |inputs|
  {
    hide Inv, Step, Possible, CallsAfter, NobodyElseLost, Dismissed, SlotsAfter, ArrivedAfter, Grows;
    if inputs != [] {
      var S1 := Step(S, inputs[0]);
      StepKeeps(S, inputs[0]);
      StepAfter(S, inputs[0]);
      StepRest(S, inputs[0]);
      if t in S1.table.sessions {
        assert t in S.table.sessions ==> WhoIs(S1.table.sessions[t]) == NextWho(S, inputs[0], t);
      } else if t in S.table.sessions && !S1.loop.crashed {
        assert t < S1.loop.nextSid by { Numbered(S, t); }
        GoneForGood(S1, inputs[1..], t);
      }
      if !S1.loop.crashed { PtIsTheOffered(S1, inputs[1..], t); }
    }
  }

  lemma Numbered(S: Srv, t: Sid)
    requires Inv(S) && t in S.table.sessions
    ensures t < S.loop.nextSid
  {
    hide Mesh, NamesOk, LogsOk, SignalingOk, MediaOk, TimersOk, PhaseOk, CallOk, Seated;
  }

  /** The call is there all the time. */
  predicate StaysOpen(S: Srv, inputs: seq<Input>, k: CallKey)
    decreases |inputs|
  {
    k in S.table.calls && (inputs == [] || S.loop.crashed || StaysOpen(Step(S, inputs[0]), inputs[1..], k))
  }

  /** A call keeps its cap for as long as it is there, whatever is pushed, joined or left. */
  lemma {:induction false} CapStays(S: Srv, inputs: seq<Input>, k: CallKey)
    requires Inv(S) && !S.loop.crashed && PossibleRun(S, inputs) && StaysOpen(S, inputs, k)
    ensures k in Run(S, inputs).table.calls && Run(S, inputs).table.calls[k].cap == S.table.calls[k].cap
    decreases |inputs|
  {
    hide Inv, Step, Possible, SessionsAfter, NobodyElseLost, Grows;
    if inputs != [] {
      StepKeeps(S, inputs[0]);
      StepAfter(S, inputs[0]);
      var S1 := Step(S, inputs[0]);
      if !S1.loop.crashed { CapStays(S1, inputs[1..], k); }
    }
  }
}
