/** The event loop as the object the source keeps, each handler proved to do what its specification function says. */
module VoiceServer {
  import opened Basics
  import opened VoiceTypes
  import Spec = VoiceSpec
  import Kept = VoiceInvariant
  import Media = VoiceMedia
  import Events = VoiceLoop

  class Server {
    const w: World
    const cfg: Cfg
    var slots: map<CallKey, SlotInfo>
    var sessions: map<Sid, Session>
    var calls: map<CallKey, Call>
    var dirty: seq<Sid>
    var nextSid: Sid
    var idCounter: nat
    var tick: nat
    var crashed: bool
    var past: Past  // what passed over the channels and streams so far

    ghost function Model(): Srv
      reads this
    {
      Srv(Env(w, cfg), Registry(slots), Table(sessions, calls), Loop(dirty, nextSid, idCounter, tick, crashed), past)
    }

    /** What the object carries from input to input: the whole invariant, and a loop that is up. */
    ghost predicate Valid()
      reads this
    {
      Kept.Inv(Model()) && !crashed
    }

    constructor (w: World, cfg: Cfg)
      ensures Model() == Events.Start(w, cfg) && Valid()
    {
      this.w, this.cfg := w, cfg;
      slots, sessions, calls, dirty := map[], map[], map[], [];
      nextSid, idCounter, tick, crashed := 1, 0, 0, false;
      past := Past(map[], map[0 := []], map[0 := 0], map[0 := []], map[0 := []], map[]);
      new;
      hide Kept.Inv;
      Events.StartKeeps(w, cfg);
    }

    // ---- channels and lifecycle ----------------------------------------------------

    method TrySend(sid: Sid, frame: ServerFrame) returns (delivered: bool)
      modifies this
      ensures Model() == Spec.TrySend(old(Model()), sid, frame)
      ensures delivered == w.delivers(old(tick))
    {
      delivered := w.delivers(tick);
      if delivered {
        past := past.(sent := past.sent[sid := (if sid in past.sent then past.sent[sid] else []) + [frame]]);
      }
      tick := tick + 1;
    }

    method Now() returns (now: Instant)
      modifies this
      ensures Model() == Spec.Ticked(old(Model())) && now == w.now(old(tick))
    {
      now := w.now(tick);
      tick := tick + 1;
    }

    /** Tell each of `rest` that `gone` has left. */
    method ForgetAll(rest: seq<Sid>, gone: Sid, sfu: SfuId)
      modifies this
      ensures Model() == Spec.ForgetAll(old(Model()), rest, gone, sfu)
    {
      hide Spec.Forget;
      var i := 0;
      while i < |rest|
        invariant 0 <= i <= |rest|
        invariant Spec.ForgetAll(Model(), rest[i..], gone, sfu) == Spec.ForgetAll(old(Model()), rest, gone, sfu)
      {
        var p := rest[i];
        assert rest[i..][0] == p && rest[i..][1..] == rest[i + 1..];
        if p in sessions {
          sessions := sessions[p := Spec.Forget(sessions[p], gone)];
          var _ := TrySend(p, PeerLeft(sfu));
        }
        i := i + 1;
      }
    }

    /** Afterwards `sid` has no session and no seat, and no session left in its call knows it as a source. */
    method CloseSession(sid: Sid, final: Option<ServerFrame>)
      modifies this
      ensures Model() == Spec.CloseSession(old(Model()), sid, final)
    {
      hide Without, Spec.ForgetAll;
      if sid !in sessions { return; }
      var s := sessions[sid];
      sessions := sessions - {sid};
      if final.Some? { var _ := TrySend(sid, final.value); }
      if s.callKey.None? || s.callKey.value !in calls { return; }
      var key := s.callKey.value;
      var call := calls[key].(participants := Without(calls[key].participants, sid));
      if call.participants == [] {
        var now := Now();
        call := call.(emptySince := Some(now));
      }
      calls := calls[key := call];
      ForgetAll(call.participants, sid, s.sfuId);
    }

    /** Deliver a frame, or close a session whose channel is full or gone. */
    method Send(sid: Sid, frame: ServerFrame)
      modifies this
      ensures Model() == Spec.Send(old(Model()), sid, frame)
    {
      hide Spec.CloseSession;
      if sid !in sessions { return; }
      var delivered := TrySend(sid, frame);
      if !delivered { CloseSession(sid, None); }
    }

    method Fail(sid: Sid, code: ErrorCode)
      modifies this
      ensures Model() == Spec.Fail(old(Model()), sid, code)
    {
      hide Spec.CloseSession;
      CloseSession(sid, Some(Error(code)));
    }

    // ---- negotiation -----------------------------------------------------------------

    /** Queue in hand, build the slots of the next re-offer one source at a time. */
    method AddSlots(q: seq<Source>, s: Session) returns (slots': map<Sid, TxSlot>, nextSsrc': nat)
      requires s.rtc.Some?
      ensures slots' == Spec.AddSlots(s.tx.slots, q, s.rtc.value.nextMid, s.nextSsrc) && nextSsrc' == s.nextSsrc + |q|
    {
      slots', nextSsrc' := s.tx.slots, s.nextSsrc;
      var mid := s.rtc.value.nextMid;
      for i := 0 to |q|
        invariant nextSsrc' == s.nextSsrc + i
        invariant Spec.AddSlots(slots', q[i..], mid + i, nextSsrc') == Spec.AddSlots(s.tx.slots, q, mid, s.nextSsrc)
      {
        assert q[i..][0] == q[i] && q[i..][1..] == q[i + 1..];
        nextSsrc' := nextSsrc' + 1;
        slots' := slots'[q[i].src := TxSlot(mid + i, Allocated(nextSsrc'), false)];
      }
    }

    /** The sources worth offering: still in the call, no slot yet. */
    method Fresh(q: seq<Source>, roster: seq<Sid>, taken: map<Sid, TxSlot>) returns (r: seq<Source>)
      ensures r == Spec.Fresh(q, roster, taken)
    {
      r := [];
      for i := 0 to |q|
        invariant r + Spec.Fresh(q[i..], roster, taken) == Spec.Fresh(q, roster, taken)
      {
        assert q[i..][0] == q[i] && q[i..][1..] == q[i + 1..];
        if q[i].src in roster && q[i].src !in taken { r := r + [q[i]]; }
      }
    }

    /** One PeerJoined per added m-line; a refused one closes the session and the rest fall away. */
    method AnnounceAll(sid: Sid, q: seq<Source>, mid: Mid)
      modifies this
      ensures Model() == Spec.AnnounceAll(old(Model()), sid, q, mid)
    {
      hide Spec.Send;
      for i := 0 to |q|
        invariant Spec.AnnounceAll(Model(), sid, q[i..], mid + i) == Spec.AnnounceAll(old(Model()), sid, q, mid)
      {
        assert q[i..][0] == q[i] && q[i..][1..] == q[i + 1..];
        Send(sid, PeerJoined(q[i].sfu, mid + i));
      }
    }

    /** At most one offer is in flight: a waiting queue becomes slots and one offer, or stays for the next answer. */
    method MaybeNegotiate(sid: Sid)
      modifies this
      ensures Model() == Spec.MaybeNegotiate(old(Model()), sid)
    {
      hide Spec.Send, Spec.AnnounceAll, Spec.AddSlots, Spec.Fresh;
      if sid !in sessions { return; }
      var s := sessions[sid];
      if !s.phase.Steady? || s.tx.offerPending || s.tx.queued == [] { return; }
      var roster := if s.callKey.Some? && s.callKey.value in calls then calls[s.callKey.value].participants else [];
      var q := Fresh(s.tx.queued, roster, s.tx.slots);
      if q == [] { sessions := sessions[sid := Spec.SetQueue(s, [])]; return; }
      if s.rtc.None? { crashed := true; return; }
      var mid := s.rtc.value.nextMid;
      var newSlots, nextSsrc' := AddSlots(q, s);
      sessions := sessions[sid := s.(rtc := Some(s.rtc.value.(nextMid := mid + |q|)), tx := Links(newSlots, [], true),
                                     nextSsrc := nextSsrc')];
      dirty := dirty + [sid];
      Send(sid, Offer(Spec.Mids(mid, |q|)));
      AnnounceAll(sid, q, mid);
    }

    // ---- signaling frames --------------------------------------------------------------

    /** Everybody of `ps` but `sid` that has a session, with names. */
    method Listed(ps: seq<Sid>, sid: Sid) returns (r: seq<Source>)
      ensures r == Spec.Listed(Model(), ps, sid)
    {
      r := [];
      for i := 0 to |ps|
        invariant r + Spec.Listed(Model(), ps[i..], sid) == Spec.Listed(Model(), ps, sid)
      {
        assert ps[i..][0] == ps[i] && ps[i..][1..] == ps[i + 1..];
        if ps[i] != sid && ps[i] in sessions { r := r + [Source(ps[i], sessions[ps[i]].sfuId)]; }
      }
    }

    /** Queue the newcomer with each existing participant and negotiate. */
    method IntroduceAll(existing: seq<Source>, sid: Sid, sfu: SfuId)
      modifies this
      ensures Model() == Spec.IntroduceAll(old(Model()), existing, sid, sfu)
    {
      hide Spec.MaybeNegotiate;
      for i := 0 to |existing|
        invariant Spec.IntroduceAll(Model(), existing[i..], sid, sfu)
                == Spec.IntroduceAll(old(Model()), existing, sid, sfu)
      {
        assert existing[i..][0] == existing[i] && existing[i..][1..] == existing[i + 1..];
        var e := existing[i].src;
        if e in sessions {
          sessions := sessions[e := Spec.SetQueue(sessions[e], sessions[e].tx.queued + [Source(sid, sfu)])];
        }
        MaybeNegotiate(e);
      }
    }

    method Seat(sid: Sid, key: CallKey)
      requires sid in sessions && key in calls
      modifies this
      ensures Model() == Spec.Seat(old(Model()), sid, key)
    {
      hide Spec.Send, Spec.IntroduceAll, Spec.Listed;
      idCounter := idCounter + 1;
      var sfu := idCounter;
      calls := calls[key := calls[key].(participants := calls[key].participants + [sid], emptySince := None)];
      sessions := sessions[sid := sessions[sid].(rtc := Some(NewRtc()), phase := AwaitingOffer, sfuId := sfu,
                                                 callKey := Some(key))];
      dirty := dirty + [sid];
      past := past.(room := past.room[sid := key]);
      assert Model() == Spec.Admit(old(Model()), sid, key);
      var existing := Listed(calls[key].participants, sid);
      Send(sid, JoinAck(sfu, calls[key].cap, Spec.Names(existing)));
      if sid !in sessions { crashed := true; return; }
      IntroduceAll(existing, sid, sfu);
    }

    method HandleJoin(sid: Sid, token: seq<byte>)
      requires sid in sessions
      modifies this
      ensures Model() == Spec.HandleJoin(old(Model()), sid, token)
    {
      hide Spec.CloseSession, Spec.Seat;
      if !sessions[sid].phase.AwaitingJoin? { Fail(sid, Protocol); return; }
      if |token| != 32 { Fail(sid, BadToken); return; }
      var key := CallKey(sessions[sid].owner, w.hash(token));
      if key !in slots { Fail(sid, BadToken); return; }
      if key !in calls {
        if |Spec.LiveCalls(calls)| >= cfg.maxConcurrentCalls { Fail(sid, Busy); return; }
        var now := Now();
        calls := calls[key := Call(Spec.EffectiveCap(slots[key], cfg.maxParticipants), [], Some(now))];
      }
      if |calls[key].participants| >= calls[key].cap {
        var _ := TrySend(sid, Full);
        CloseSession(sid, None);
        return;
      }
      Seat(sid, key);
    }

    method HandleOffer(sid: Sid, offer: OfferSdp)
      requires sid in sessions
      modifies this
      ensures Model() == Spec.HandleOffer(old(Model()), sid, offer)
    {
      hide Spec.CloseSession, Spec.Send, Spec.MaybeNegotiate, Spec.Listed;
      var s := sessions[sid];
      if !s.phase.AwaitingOffer? || offer.BadOffer? { Fail(sid, Protocol); return; }
      if s.rtc.None? { crashed := true; return; }
      if offer.RefusedOffer? { Fail(sid, Protocol); return; }
      if s.callKey.None? { crashed := true; return; }
      sessions := sessions[sid := s.(opusPt := offer.opusPt, phase := Steady)];
      dirty := dirty + [sid];
      Send(sid, Answer);
      var others := Listed(if s.callKey.value in calls then calls[s.callKey.value].participants else [], sid);
      if sid in sessions { sessions := sessions[sid := Spec.SetQueue(sessions[sid], others)]; }
      MaybeNegotiate(sid);
    }

    /** Adopt or declare the stream of every slot that is not declared yet. */
    method DeclareSlots(sid: Sid, mids: set<Mid>)
      requires sid in sessions
      modifies this
      ensures Model() == Spec.DeclareBelow(old(Model()), sid, old(nextSid), mids)
    {
      for src := 0 to nextSid
        invariant nextSid == old(nextSid) && sid in sessions
        invariant Model() == Spec.DeclareBelow(old(Model()), sid, src, mids)
      {
        if src in sessions[sid].tx.slots && !sessions[sid].tx.slots[src].declared {
          var slot := Spec.Adopt(sessions[sid].tx.slots[src], mids);
          var start := if src in past.heard then |past.heard[src]| else 0;
          past := past.(streams := past.streams[StreamKey(sid, slot.ssrc) := Stream(src, start, [])]);
          var tx := sessions[sid].tx;
          sessions := sessions[sid := sessions[sid].(tx := tx.(slots := tx.slots[src := slot]))];
        }
      }
    }

    method HandleAnswer(sid: Sid, answer: AnswerSdp)
      requires sid in sessions
      modifies this
      ensures Model() == Spec.HandleAnswer(old(Model()), sid, answer)
    {
      hide Spec.CloseSession, Spec.MaybeNegotiate, Spec.DeclareBelow;
      var s := sessions[sid];
      if !s.phase.Steady? || !s.tx.offerPending || answer.BadAnswer? { Fail(sid, Protocol); return; }
      if s.rtc.None? { crashed := true; return; }
      sessions := sessions[sid := s.(tx := s.tx.(offerPending := false))];
      if answer.RefusedAnswer? { Fail(sid, Internal); return; }
      past := past.(accepted := past.accepted[sid := (if sid in past.accepted then past.accepted[sid] else 0) + 1]);
      DeclareSlots(sid, answer.streams);
      dirty := dirty + [sid];
      MaybeNegotiate(sid);
    }

    method HandleIce(sid: Sid, parses: bool)
      requires sid in sessions
      modifies this
      ensures Model() == Spec.HandleIce(old(Model()), sid, parses)
    {
      hide Spec.CloseSession;
      if sessions[sid].rtc.None? { Fail(sid, Protocol); return; }
      if parses { dirty := dirty + [sid]; }
    }

    /** A frame that is no unacknowledged admission leaves the object valid; that one takes the loop down. */
    method HandleFrame(sid: Sid, frame: ClientFrame)
      requires Valid()
      modifies this
      ensures Model() == Events.HandleFrame(old(Model()), sid, frame)
      ensures if Events.AckLost(old(Model()), Events.SessionFrame(sid, frame)) then crashed else Valid()
    {
      hide Kept.Inv, Events.AckLost, Events.DispatchFrame;
      Events.StepKeeps(Model(), Events.SessionFrame(sid, frame));
      ReceiveFrame(sid, frame);
    }

    method ReceiveFrame(sid: Sid, frame: ClientFrame)
      modifies this
      ensures Model() == Events.HandleFrame(old(Model()), sid, frame)
    {
      hide Spec.CloseSession, Spec.HandleJoin, Spec.HandleOffer, Spec.HandleAnswer, Spec.HandleIce, Media.DrainReady;
      if sid !in sessions { return; }
      match frame {
        case Join(token) => HandleJoin(sid, token);
        case ClientOffer(offer) => HandleOffer(sid, offer);
        case ClientAnswer(answer) => HandleAnswer(sid, answer);
        case Ice(parses) => HandleIce(sid, parses);
        case ClientBye => CloseSession(sid, Some(Bye));
      }
      if !crashed { DrainReady(); }
    }

    // ---- media -----------------------------------------------------------------------

    /** The packet is appended to every declared stream for `src` in its own call, and to nothing else. */
    method ForwardRtp(src: Sid, p: Packet)
      modifies this
      ensures Model() == Spec.ForwardRtp(old(Model()), src, p)
    {
      hide Without;
      if src !in sessions || sessions[src].callKey.None? || sessions[src].callKey.value !in calls { return; }
      past := past.(heard := past.heard[src := (if src in past.heard then past.heard[src] else []) + [p]]);
      ghost var S1 := Model();
      var targets := Without(calls[sessions[src].callKey.value].participants, src);
      for i := 0 to |targets|
        invariant Spec.FanOut(Model(), targets[i..], src, p) == Spec.FanOut(S1, targets, src, p)
      {
        assert targets[i..][0] == targets[i] && targets[i..][1..] == targets[i + 1..];
        ForwardTo(targets[i], src, p);
      }
    }

    /** Write the packet to the target's declared slot for the source, if it has one. */
    method ForwardTo(t: Sid, src: Sid, p: Packet)
      modifies this
      ensures Model() == Spec.ForwardTo(old(Model()), t, src, p)
    {
      if t !in sessions { return; }
      var target := sessions[t];
      if src !in target.tx.slots || !target.tx.slots[src].declared || target.opusPt.None? || target.rtc.None? {
        return;
      }
      var k := StreamKey(t, target.tx.slots[src].ssrc);
      if k !in past.streams { return; }
      past := past.(streams := past.streams[k := past.streams[k].(log := past.streams[k].log + [p])]);
      dirty := dirty + [t];
    }

    method DrainSession(sid: Sid)
      modifies this
      ensures Model() == Spec.DrainSession(old(Model()), sid)
    {
      hide Spec.ForwardRtp, Spec.CloseSession;
      if sid !in sessions || sessions[sid].rtc.None? { return; }
      var poll := w.poll(tick);
      tick := tick + 1;
      var inbound := sessions[sid].rtc.value.inbound;
      var ps := inbound[..Spec.Taken(poll, inbound)];
      sessions := sessions[sid := Spec.Polled(sessions[sid], poll)];
      ghost var S1 := Model();
      for i := 0 to |ps|
        invariant Spec.ForwardAll(Model(), sid, ps[i..]) == Spec.ForwardAll(S1, sid, ps)
      {
        assert ps[i..][0] == ps[i] && ps[i..][1..] == ps[i + 1..];
        ForwardRtp(sid, ps[i]);
      }
      if Spec.Closes(poll) { CloseSession(sid, None); }
    }

    /** Ends with an empty work list, whatever the rosters and however many packets wait. */
    method DrainReady()
      modifies this
      ensures Model() == Media.DrainReady(old(Model())) && dirty == []
    {
      hide Spec.DrainSession;
      while dirty != []
        invariant Media.DrainReady(Model()) == Media.DrainReady(old(Model()))
        decreases Media.Backlog(sessions), |dirty|
      {
        Media.DrainProgress(Model());
        var sid := dirty[0];
        dirty := dirty[1..];
        DrainSession(sid);
      }
    }

    // ---- inputs ------------------------------------------------------------------------

    method RegisterSlots(owner: seq<byte>, entries: seq<Events.SlotEntry>)
      requires Valid()
      modifies this
      ensures Model() == Events.HandleRegister(old(Model()), owner, entries) && Valid()
    {
      hide Kept.Inv;
      Events.StepKeeps(Model(), Events.RegisterSlots(owner, entries));
      slots := Events.DropSlots(slots, owner);
      ghost var kept := slots;
      for i := 0 to |entries|
        invariant Model() == old(Model()).(registry := Registry(slots))
        invariant Events.InsertSlots(slots, owner, entries[i..]) == Events.InsertSlots(kept, owner, entries)
      {
        assert entries[i..][0] == entries[i] && entries[i..][1..] == entries[i + 1..];
        if |entries[i].hash| == 32 { slots := slots[CallKey(owner, entries[i].hash) := entries[i].info]; }
      }
    }

    method OpenSession(owner: seq<byte>, callerWaits: bool) returns (sid: Sid)
      requires Valid()
      modifies this
      ensures Model() == Events.HandleOpen(old(Model()), owner, callerWaits) && sid == old(nextSid) && Valid()
    {
      hide Kept.Inv;
      Events.StepKeeps(Model(), Events.OpenSession(owner, callerWaits));
      sid := nextSid;
      nextSid := nextSid + 1;
      past := past.(sent := past.sent[sid := []], accepted := past.accepted[sid := 0],
                    arrived := past.arrived[sid := []], heard := past.heard[sid := []]);
      if callerWaits { sessions := sessions[sid := NewSession(owner)]; }
    }

    /** Some order of a set: hash maps are iterated in no particular one. */
    method Enumerate(unseen: set<Sid>) returns (order: seq<Sid>)
      ensures Enumerates(order, unseen)
    {
      var rest := unseen;
      order := [];
      while rest != {}
        invariant NoDup(order) && rest <= unseen
        invariant forall x :: x in order <==> x in unseen && x !in rest
        decreases rest
      {
        var x :| x in rest;
        order, rest := order + [x], rest - {x};
      }
    }

    method CloseEach(order: seq<Sid>, final: Option<ServerFrame>)
      modifies this
      ensures Model() == Events.CloseEach(old(Model()), order, final)
    {
      hide Spec.CloseSession;
      for i := 0 to |order|
        invariant Events.CloseEach(Model(), order[i..], final) == Events.CloseEach(old(Model()), order, final)
      {
        assert order[i..][0] == order[i] && order[i..][1..] == order[i + 1..];
        CloseSession(order[i], final);
      }
    }

    method DropOwner(owner: seq<byte>) returns (order: seq<Sid>)
      requires Valid()
      modifies this
      ensures Events.Possible(old(Model()), Events.DropOwner(owner, order))
      ensures Model() == Events.HandleDrop(old(Model()), owner, order) && Valid()
    {
      hide Events.CloseEach, Kept.Inv;
      ghost var was := Model();
      slots := Events.DropSlots(slots, owner);
      order := Enumerate(set t | t in sessions && sessions[t].owner == owner);
      CloseEach(order, Some(Bye));
      calls := map k | k in calls && k.owner != owner :: calls[k];
      Events.StepKeeps(was, Events.DropOwner(owner, order));
    }

    /** The client's channel is gone. */
    method SessionClosed(sid: Sid)
      requires Valid()
      modifies this
      ensures Model() == Spec.CloseSession(old(Model()), sid, None) && Valid()
    {
      hide Spec.CloseSession, Kept.Inv;
      Events.StepKeeps(Model(), Events.SessionClosed(sid));
      CloseSession(sid, None);
    }

    /** A datagram, the session whose `Rtc` accepts it if any does, and what the library made of it. */
    method HandlePacket(route: Option<Sid>, events: Option<seq<Packet>>)
      requires Valid() && Events.Possible(Model(), Events.PacketIn(route, events))
      modifies this
      ensures Model() == Events.HandlePacket(old(Model()), route, events) && Valid()
    {
      hide Spec.CloseSession, Kept.Inv;
      Events.StepKeeps(Model(), Events.PacketIn(route, events));
      if route.None? { return; }
      var sid := route.value;
      if events.None? { CloseSession(sid, None); return; }
      sessions := sessions[sid := Events.Receives(sessions[sid], events.value)];
      var before := if sid in past.arrived then past.arrived[sid] else [];
      past := past.(arrived := past.arrived[sid := before + events.value]);
      dirty := dirty + [sid];
    }

    method TimeOutEach(due: seq<Sid>, failing: set<Sid>)
      modifies this
      ensures Model() == Events.TimeOutEach(old(Model()), due, failing)
    {
      hide Spec.CloseSession;
      for i := 0 to |due|
        invariant Events.TimeOutEach(Model(), due[i..], failing) == Events.TimeOutEach(old(Model()), due, failing)
      {
        var sid := due[i];
        assert due[i..][0] == due[i] && due[i..][1..] == due[i + 1..];
        if sid in sessions && sessions[sid].rtc.Some? {
          sessions := sessions[sid := Events.Disarmed(sessions[sid])];
          if sid in failing { CloseSession(sid, None); } else { dirty := dirty + [sid]; }
        }
      }
    }

    /** Afterwards nothing is dirty, every `Rtc` has a timer, and every call still empty is due in the future. */
    method HandleTime(now: Instant, failing: set<Sid>) returns (due: seq<Sid>)
      requires Valid()
      modifies this
      ensures Events.Possible(old(Model()), Events.Time(now, due, failing))
      ensures Model() == Events.HandleTime(old(Model()), now, due, failing) && Valid() && dirty == []
      ensures forall t :: t in sessions && sessions[t].rtc.Some? ==> sessions[t].nextTimeout.Some?
      ensures forall k :: k in calls && calls[k].emptySince.Some? ==> calls[k].emptySince.value + cfg.idleReap > now
    {
      hide Events.TimeOutEach, Media.DrainReady, Kept.Inv;
      ghost var was := Model();
      due := Enumerate(set t | t in sessions && sessions[t].rtc.Some?
                               && sessions[t].nextTimeout.Some? && sessions[t].nextTimeout.value <= now);
      TimeOutEach(due, failing);
      DrainReady();
      calls := map k | k in calls && !Events.Reapable(calls[k], now, cfg.idleReap) :: calls[k];
      Events.TimeKeeps(was, now, due, failing);
    }

    /** The earliest moment anything is due: a session's timer or the reaping of an empty call. */
    method NextDeadline() returns (d: Option<Instant>)
      ensures d.None? <==> forall m :: !Wakes(m)
      ensures d.Some? ==> Wakes(d.value) && forall m :: Wakes(m) ==> d.value <= m
    {
      d := None;
      var unseen := sessions.Keys;
      while unseen != {}
        invariant unseen <= sessions.Keys
        invariant d.Some? ==> Wakes(d.value)
        invariant forall t :: t in sessions && t !in unseen && sessions[t].nextTimeout.Some? ==>
                    d.Some? && d.value <= sessions[t].nextTimeout.value
        decreases unseen
      {
        var t :| t in unseen;
        unseen := unseen - {t};
        if sessions[t].nextTimeout.Some? && (d.None? || sessions[t].nextTimeout.value < d.value) {
          d := sessions[t].nextTimeout;
        }
      }
      var rest := calls.Keys;
      while rest != {}
        invariant rest <= calls.Keys
        invariant d.Some? ==> Wakes(d.value)
        invariant forall t :: t in sessions && sessions[t].nextTimeout.Some? ==>
                    d.Some? && d.value <= sessions[t].nextTimeout.value
        invariant forall k :: k in calls && k !in rest && calls[k].emptySince.Some? ==>
                    d.Some? && d.value <= calls[k].emptySince.value + cfg.idleReap
        decreases rest
      {
        var k :| k in rest;
        rest := rest - {k};
        if calls[k].emptySince.Some? && (d.None? || calls[k].emptySince.value + cfg.idleReap < d.value) {
          d := Some(calls[k].emptySince.value + cfg.idleReap);
        }
      }
    }

    /** `m` is a session's timer or an empty call's reap time. */
    ghost predicate Wakes(m: Instant)
      reads this
    {
      || (exists t :: t in sessions && sessions[t].nextTimeout == Some(m))
      || (exists k :: k in calls && calls[k].emptySince.Some? && calls[k].emptySince.value + cfg.idleReap == m)
    }
  }
}
