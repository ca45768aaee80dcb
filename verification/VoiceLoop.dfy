/** Inputs of the event loop, whole runs of it, and what holds along every run. */
module VoiceLoop {
  import opened Basics
  import opened VoiceTypes
  import opened VoiceSpec
  import opened VoiceInvariant
  import opened VoiceClose
  import opened VoiceSwap
  import opened VoiceGone
  import opened VoiceSend
  import opened VoiceNegotiate
  import opened VoiceJoin
  import opened VoiceAnswer
  import opened VoiceMedia

  // ---- inputs ------------------------------------------------------------------

  datatype SlotEntry = SlotEntry(hash: seq<byte>, info: SlotInfo)

  /** `due` and `order` are the iteration orders of a hash map; `failing` are the timeouts the library rejects. */
  datatype Input =
    | RegisterSlots(owner: seq<byte>, entries: seq<SlotEntry>)
    | DropOwner(owner: seq<byte>, order: seq<Sid>)
    | OpenSession(owner: seq<byte>, callerWaits: bool)
    | SessionFrame(sid: Sid, frame: ClientFrame)
    | SessionClosed(sid: Sid)
    | PacketIn(route: Option<Sid>, events: Option<seq<Packet>>)
    | Time(now: Instant, due: seq<Sid>, failing: set<Sid>)

  function DropSlots(slots: map<CallKey, SlotInfo>, owner: seq<byte>): map<CallKey, SlotInfo> {
    map k | k in slots && k.owner != owner :: slots[k]
  }

  function InsertSlots(slots: map<CallKey, SlotInfo>, owner: seq<byte>, entries: seq<SlotEntry>): map<CallKey, SlotInfo>
    decreases |entries|
  {
    if entries == [] then slots
    else if |entries[0].hash| != 32 then InsertSlots(slots, owner, entries[1..])
    else InsertSlots(slots[CallKey(owner, entries[0].hash) := entries[0].info], owner, entries[1..])
  }

  function HandleRegister(S: Srv, owner: seq<byte>, entries: seq<SlotEntry>): Srv {
    S.(registry := Registry(InsertSlots(DropSlots(S.registry.slots, owner), owner, entries)))
  }

  function HandleOpen(S: Srv, owner: seq<byte>, callerWaits: bool): Srv {
    var sid := S.loop.nextSid;
    S.(loop := S.loop.(nextSid := sid + 1),
       table := if callerWaits then S.table.(sessions := S.table.sessions[sid := NewSession(owner)]) else S.table,
       past := S.past.(sent := S.past.sent[sid := []], accepted := S.past.accepted[sid := 0],
                       arrived := S.past.arrived[sid := []], heard := S.past.heard[sid := []]))
  }

  function CloseEach(S: Srv, order: seq<Sid>, final: Option<ServerFrame>): Srv
    decreases |order|
  {
    if order == [] then S else CloseEach(CloseSession(S, order[0], final), order[1..], final)
  }

  function SessionsOf(S: Srv, owner: seq<byte>): set<Sid> {
    set t | t in S.table.sessions && S.table.sessions[t].owner == owner
  }

  function HandleDrop(S: Srv, owner: seq<byte>, order: seq<Sid>): Srv {
    var S1 := CloseEach(S.(registry := Registry(DropSlots(S.registry.slots, owner))), order, Some(Bye));
    S1.(table := S1.table.(calls := map k | k in S1.table.calls && k.owner != owner :: S1.table.calls[k]))
  }

  function DispatchFrame(S: Srv, sid: Sid, frame: ClientFrame): Srv
    requires sid in S.table.sessions
  {
    match frame
    case Join(token) => HandleJoin(S, sid, token)
    case ClientOffer(offer) => HandleOffer(S, sid, offer)
    case ClientAnswer(answer) => HandleAnswer(S, sid, answer)
    case Ice(parses) => HandleIce(S, sid, parses)
    case ClientBye => CloseSession(S, sid, Some(Bye))
  }

  function HandleFrame(S: Srv, sid: Sid, frame: ClientFrame): Srv {
    if sid !in S.table.sessions then S
    else
      var S1 := DispatchFrame(S, sid, frame);
      if S1.loop.crashed then S1 else DrainReady(S1)
  }

  function Receives(s: Session, ps: seq<Packet>): Session
    requires s.rtc.Some?
  {
    s.(rtc := Some(s.rtc.value.(inbound := s.rtc.value.inbound + ps)))
  }

  function ArrivedAt(S: Srv, sid: Sid): seq<Packet> { if sid in S.past.arrived then S.past.arrived[sid] else [] }

  function Arrive(S: Srv, sid: Sid, ps: seq<Packet>): Srv {
    S.(past := S.past.(arrived := S.past.arrived[sid := ArrivedAt(S, sid) + ps]))
  }

  /** A datagram some session's `Rtc` accepts either feeds it events or kills it; one nobody accepts is dropped. */
  function HandlePacket(S: Srv, route: Option<Sid>, events: Option<seq<Packet>>): Srv {
    if route.None? then S
    else if route.value !in S.table.sessions || S.table.sessions[route.value].rtc.None? then Crash(S)
    else if events.None? then CloseSession(S, route.value, None)
    else MarkDirty(Arrive(SetSession(S, route.value, Receives(S.table.sessions[route.value], events.value)),
                          route.value, events.value),
                   route.value)
  }

  function DueSet(S: Srv, now: Instant): set<Sid> {
    set t | t in S.table.sessions && S.table.sessions[t].rtc.Some?
            && S.table.sessions[t].nextTimeout.Some? && S.table.sessions[t].nextTimeout.value <= now
  }

  function Disarmed(s: Session): Session { s.(nextTimeout := None) }

  function TimeOutOne(S: Srv, sid: Sid, failing: set<Sid>): Srv {
    if sid !in S.table.sessions || S.table.sessions[sid].rtc.None? then S
    else
      var S1 := SetSession(S, sid, Disarmed(S.table.sessions[sid]));
      if sid in failing then CloseSession(S1, sid, None) else MarkDirty(S1, sid)
  }

  function TimeOutEach(S: Srv, due: seq<Sid>, failing: set<Sid>): Srv
    decreases |due|
  {
    if due == [] then S else TimeOutEach(TimeOutOne(S, due[0], failing), due[1..], failing)
  }

  /** Empty for at least `idleReap`; a clock that runs behind counts as no time passed. */
  predicate Reapable(call: Call, now: Instant, idleReap: nat) {
    && call.participants == [] && call.emptySince.Some?
    && Max(now - call.emptySince.value, 0) >= idleReap
  }

  function Reap(S: Srv, now: Instant): Srv {
    var cs := S.table.calls;
    S.(table := S.table.(calls := map k | k in cs && !Reapable(cs[k], now, S.env.cfg.idleReap) :: cs[k]))
  }

  function HandleTime(S: Srv, now: Instant, due: seq<Sid>, failing: set<Sid>): Srv {
    Reap(DrainReady(TimeOutEach(S, due, failing)), now)
  }

  function Step(S: Srv, input: Input): Srv {
    match input
    case RegisterSlots(owner, entries) => HandleRegister(S, owner, entries)
    case DropOwner(owner, order) => HandleDrop(S, owner, order)
    case OpenSession(owner, callerWaits) => HandleOpen(S, owner, callerWaits)
    case SessionFrame(sid, frame) => HandleFrame(S, sid, frame)
    case SessionClosed(sid) => CloseSession(S, sid, None)
    case PacketIn(route, events) => HandlePacket(S, route, events)
    case Time(now, due, failing) => HandleTime(S, now, due, failing)
  }

  /**
   * What the outside may do: datagrams go where an `Rtc` accepts them, and the iteration orders list the right
   * sessions.
   */
  ghost predicate Possible(S: Srv, input: Input) {
    match input
    case DropOwner(owner, order) => Enumerates(order, SessionsOf(S, owner))
    case PacketIn(route, _) =>
      route.Some? ==> route.value in S.table.sessions && S.table.sessions[route.value].rtc.Some?
    case Time(now, due, _) => Enumerates(due, DueSet(S, now))
    case _ => true
  }

  function Start(w: World, cfg: Cfg): Srv {
    Srv(Env(w, cfg), Registry(map[]), Table(map[], map[]), Loop([], 1, 0, 0, false),
        Past(map[], map[0 := []], map[0 := 0], map[0 := []], map[0 := []], map[]))
  }

  /** The state after a run; a crashed loop takes no more input. */
  function Run(S: Srv, inputs: seq<Input>): Srv
    decreases |inputs|
  {
    if inputs == [] || S.loop.crashed then S else Run(Step(S, inputs[0]), inputs[1..])
  }

  ghost predicate PossibleRun(S: Srv, inputs: seq<Input>)
    decreases |inputs|
  {
    inputs == [] || S.loop.crashed || (Possible(S, inputs[0]) && PossibleRun(Step(S, inputs[0]), inputs[1..]))
  }

  // ---- every step keeps the invariant ------------------------------------------

  lemma StartKeeps(w: World, cfg: Cfg)
    ensures Inv(Start(w, cfg)) && !Start(w, cfg).loop.crashed
  {
  }

  lemma OpenRosters(ss: Sessions, cs: Calls, room: map<Sid, CallKey>, n: Sid, owner: seq<byte>)
    requires Rosters(ss, cs, room, n) && n !in room
    ensures Rosters(ss[n := NewSession(owner)], cs, room, n + 1) && Rosters(ss, cs, room, n + 1)
  {
    var ss' := ss[n := NewSession(owner)];
    forall k | k in cs ensures CallOk(ss', k, cs[k]) { assert CallOk(ss, k, cs[k]); }
  }

  lemma OpenMesh(ss: Sessions, cs: Calls, n: Sid, owner: seq<byte>)
    requires Mesh(ss, cs, {}, {})
    ensures Mesh(ss[n := NewSession(owner)], cs, {}, {})
  {
    var s := NewSession(owner);
    assert Apart(s, cs, n, {}) && Covers(s, cs, n, {}) && AtRest(s, false);
    hide Apart, Covers, AtRest;
  }

  lemma OpenNames(ss: Sessions, idCounter: nat, dirty: seq<Sid>, n: Sid, owner: seq<byte>)
    requires NamesOk(ss, idCounter) && TimersOk(ss, dirty) && n !in ss
    ensures NamesOk(ss[n := NewSession(owner)], idCounter) && TimersOk(ss[n := NewSession(owner)], dirty)
  {
  }

  lemma OpenLogs(sent: map<Sid, seq<ServerFrame>>, accepted: map<Sid, nat>, n: Sid)
    requires LogsOk(sent, accepted, n)
    ensures LogsOk(sent[n := []], accepted[n := 0], n + 1)
  {
  }

  lemma OpenSignaling(ss: Sessions, sent: map<Sid, seq<ServerFrame>>, accepted: map<Sid, nat>, idCounter: nat, n: Sid,
                      owner: seq<byte>)
    requires SignalingOk(ss, sent, accepted, idCounter) && n !in ss
    ensures SignalingOk(ss[n := NewSession(owner)], sent[n := []], accepted[n := 0], idCounter)
    ensures SignalingOk(ss, sent[n := []], accepted[n := 0], idCounter)
  {
    hide Told;
    var ss', sent' := ss[n := NewSession(owner)], sent[n := []];
    forall t, u | t in ss && u in ss' && ss'[u].callKey.Some? && Told(sent'[t], ss'[u].sfuId)
      ensures u in ss'[t].tx.slots
    {
      assert ToldHaveSlots(ss, t, sent[t]);
    }
    assert ToldHaveSlots(ss', n, []) by { NobodyTold(); }
  }

  lemma NobodyTold()
    ensures forall sfu :: !Told([], sfu)
  {
  }

  lemma OpenMedia(ss: Sessions, streams: map<StreamKey, Stream>, heard: map<Sid, seq<Packet>>, room: map<Sid, CallKey>,
                  n: Sid, owner: seq<byte>)
    requires MediaOk(ss, streams, heard, room, n) && n !in ss
    ensures MediaOk(ss[n := NewSession(owner)], streams, heard[n := []], room, n + 1)
    ensures MediaOk(ss, streams, heard[n := []], room, n + 1)
  {
    var ss', heard' := ss[n := NewSession(owner)], heard[n := []];
    forall k | k in streams
      ensures StreamLive(k, streams[k], ss', heard') && StreamLive(k, streams[k], ss, heard')
      ensures StreamPast(k, streams[k], room, heard')
    {
      assert StreamLive(k, streams[k], ss, heard) && StreamPast(k, streams[k], room, heard);
      assert k.target != n && streams[k].source != n;
    }
    assert forall t :: t in ss ==> SlotsDistinct(ss[t]);
    assert forall t, src :: t in ss && src in ss[t].tx.slots ==> ss[t].rtc.Some? && SlotOk(ss[t], t, src, streams);
  }

  lemma OpenKeeps(S: Srv, owner: seq<byte>, callerWaits: bool)
    requires Inv(S)
    ensures Inv(HandleOpen(S, owner, callerWaits))
  {
    hide Rosters, Mesh, NamesOk, LogsOk, SignalingOk, MediaOk, TimersOk;
    var n := S.loop.nextSid;
    assert n !in S.table.sessions && n !in S.past.room by { NextIsFree(S); }
    OpenRosters(S.table.sessions, S.table.calls, S.past.room, n, owner);
    OpenMesh(S.table.sessions, S.table.calls, n, owner);
    OpenNames(S.table.sessions, S.loop.idCounter, S.loop.dirty, n, owner);
    OpenLogs(S.past.sent, S.past.accepted, n);
    OpenSignaling(S.table.sessions, S.past.sent, S.past.accepted, S.loop.idCounter, n, owner);
    OpenMedia(S.table.sessions, S.past.streams, S.past.heard, S.past.room, n, owner);
  }

  lemma NextIsFree(S: Srv)
    requires Inv(S)
    ensures S.loop.nextSid !in S.table.sessions && S.loop.nextSid !in S.past.room
  {
    hide Mesh, NamesOk, LogsOk, SignalingOk, TimersOk, StreamLive, StreamPast, SlotOk, SlotsDistinct, CallOk, PhaseOk;
  }

  /** Empty calls can go; nobody sits in them. */
  lemma CallsGoKeeps(S: Srv, calls: Calls)
    requires Inv(S)
    requires forall k :: k in calls ==> k in S.table.calls && calls[k] == S.table.calls[k]
    requires forall k :: k in S.table.calls && k !in calls ==> S.table.calls[k].participants == []
    ensures Inv(S.(table := S.table.(calls := calls)))
  {
    hide NamesOk, LogsOk, SignalingOk, MediaOk, TimersOk, Covers, AtRest, Apart, PhaseOk;
    var ss, cs := S.table.sessions, S.table.calls;
    forall t | t in ss
      ensures Seated(ss[t], t, calls, S.past.room) && Apart(ss[t], calls, t, {}) && Covers(ss[t], calls, t, {})
    {
      assert Seated(ss[t], t, cs, S.past.room);
      SamePeers(ss[t], cs, calls, t, {});
    }
    forall k | k in calls ensures CallOk(ss, k, calls[k]) { assert CallOk(ss, k, cs[k]); }
  }

  lemma {:induction false} CloseEachKeeps(S: Srv, order: seq<Sid>, final: Option<ServerFrame>)
    requires Inv(S) && (final.Some? ==> Quiet(final.value))
    ensures var S' := CloseEach(S, order, final);
            && Inv(S') && S'.loop.crashed == S.loop.crashed
            && (forall t :: t in S'.table.sessions ==>
                  t in S.table.sessions && t !in order && S'.table.sessions[t].owner == S.table.sessions[t].owner)
    decreases |order|
  {
    hide Rosters, Mesh, NamesOk, LogsOk, SignalingOk, MediaOk, TimersOk, CloseSession;
    if order != [] {
      var S1 := CloseSession(S, order[0], final);
      CloseKeeps(S, order[0], final, {}, {});
      CloseOwners(S, order[0], final);
      CloseEachKeeps(S1, order[1..], final);
      assert forall t :: t in order <==> t == order[0] || t in order[1..];
    }
  }

  lemma CloseOwners(S: Srv, sid: Sid, final: Option<ServerFrame>)
    requires Inv(S) && (final.Some? ==> Quiet(final.value))
    ensures var S' := CloseSession(S, sid, final);
            && (forall t :: t in S'.table.sessions ==>
                  t in S.table.sessions && S'.table.sessions[t].owner == S.table.sessions[t].owner)
            && S'.loop == S.loop.(tick := S'.loop.tick)
  {
    hide Rosters, Mesh, NamesOk, LogsOk, SignalingOk, MediaOk, TimersOk, Leave, SendFinal, WithoutSource;
    if sid in S.table.sessions {
      InvSent(S, {}, {});
      CloseEffect(S, sid, final, {}, {});
    }
  }

  /** A live call has a session of its owner in it. */
  lemma SeatsAreOwners(S: Srv, k: CallKey)
    requires Inv(S) && k in S.table.calls
    ensures var ps := S.table.calls[k].participants;
            ps != [] ==> ps[0] in S.table.sessions && S.table.sessions[ps[0]].owner == k.owner
  {
    hide Mesh, NamesOk, LogsOk, SignalingOk, MediaOk, TimersOk, PhaseOk;
    var ps := S.table.calls[k].participants;
    if ps != [] {
      assert ps[0] in ps && CallOk(S.table.sessions, k, S.table.calls[k]);
      assert Seated(S.table.sessions[ps[0]], ps[0], S.table.calls, S.past.room);
    }
  }

  /** Dropping an owner closes that owner's sessions first, so only empty calls are discarded. */
  lemma DropKeeps(S: Srv, owner: seq<byte>, order: seq<Sid>)
    requires Inv(S) && Enumerates(order, SessionsOf(S, owner))
    ensures var S' := HandleDrop(S, owner, order);
            && Inv(S') && S'.loop.crashed == S.loop.crashed
            && (forall t :: t in S'.table.sessions ==> S'.table.sessions[t].owner != owner)
            && (forall k :: k in S'.table.calls ==> k.owner != owner)
  {
    hide Rosters, Mesh, NamesOk, LogsOk, SignalingOk, MediaOk, TimersOk, CloseEach;
    var S0 := S.(registry := Registry(DropSlots(S.registry.slots, owner)));
    assert Inv(S0);
    CloseEachKeeps(S0, order, Some(Bye));
    var S1 := CloseEach(S0, order, Some(Bye));
    var calls := map k | k in S1.table.calls && k.owner != owner :: S1.table.calls[k];
    forall k | k in S1.table.calls && k !in calls ensures S1.table.calls[k].participants == [] {
      SeatsAreOwners(S1, k);
    }
    CallsGoKeeps(S1, calls);
  }

  lemma PacketKeeps(S: Srv, sid: Sid, events: Option<seq<Packet>>)
    requires Inv(S) && sid in S.table.sessions && S.table.sessions[sid].rtc.Some?
    ensures Inv(HandlePacket(S, Some(sid), events)) && HandlePacket(S, Some(sid), events).loop.crashed == S.loop.crashed
  {
    hide Rosters, Mesh, NamesOk, LogsOk, SignalingOk, MediaOk, CloseSession;
    if events.None? {
      CloseKeeps(S, sid, None, {}, {});
    } else {
      RecordKeeps(S, sid, Receives(S.table.sessions[sid], events.value));
    }
  }

  /** A session whose `Rtc` or timer alone changed, and which is put on the work list. */
  lemma RecordKeeps(S: Srv, sid: Sid, s: Session)
    requires Inv(S) && sid in S.table.sessions && S.table.sessions[sid].rtc.Some? && s.rtc.Some?
    requires s == S.table.sessions[sid].(rtc := s.rtc, nextTimeout := s.nextTimeout)
    requires s.rtc.value.nextMid == S.table.sessions[sid].rtc.value.nextMid
    ensures Inv(MarkDirty(SetSession(S, sid, s), sid))
  {
    hide Rosters, Mesh, NamesOk, LogsOk, SignalingOk, MediaOk;
    RecordAt(S, sid);
    SwapRosters(S.table.sessions, S.table.calls, S.past.room, S.loop.nextSid, sid, s);
    SwapNames(S.table.sessions, S.loop.idCounter, sid, s);
    SwapSignaling(S.table.sessions, S.past.sent, S.past.accepted, S.loop.idCounter, sid, s);
    SwapMedia(S.table.sessions, S.past.streams, S.past.heard, S.past.room, S.loop.nextSid, sid, s);
    SwapMesh(S.table.sessions, S.table.calls, sid, s);
  }

  lemma {:induction false} TimeOutEachKeeps(S: Srv, due: seq<Sid>, failing: set<Sid>)
    requires Inv(S)
    ensures Inv(TimeOutEach(S, due, failing)) && TimeOutEach(S, due, failing).loop.crashed == S.loop.crashed
    decreases |due|
  {
    hide Rosters, Mesh, NamesOk, LogsOk, SignalingOk, MediaOk, TimersOk, CloseSession;
    if due != [] {
      var sid := due[0];
      if sid in S.table.sessions && S.table.sessions[sid].rtc.Some? {
        if sid in failing {
          CloseSame(S, sid, Disarmed(S.table.sessions[sid]), None);
          CloseKeeps(S, sid, None, {}, {});
        } else {
          RecordKeeps(S, sid, Disarmed(S.table.sessions[sid]));
        }
      }
      TimeOutEachKeeps(TimeOutOne(S, sid, failing), due[1..], failing);
    }
  }

  /** An empty call whose time is up. */
  predicate Overdue(call: Call, now: Instant, idleReap: nat) {
    call.participants == [] && (idleReap == 0 || (call.emptySince.Some? && call.emptySince.value + idleReap <= now))
  }

  /**
   * After the timers: nothing to drain, and every `Rtc` armed. Of the calls that are left when everything is drained,
   * exactly those go that are empty and have been for `idleReap`; the others and everything else stay as they are, and
   * a call still empty is due in the future.
   */
  lemma TimeKeeps(S: Srv, now: Instant, due: seq<Sid>, failing: set<Sid>)
    requires Inv(S)
    ensures var S1, S' := DrainReady(TimeOutEach(S, due, failing)), HandleTime(S, now, due, failing);
            && Inv(S') && S'.loop.crashed == S.loop.crashed
            && S'.loop.dirty == []
            && (forall t :: t in S'.table.sessions && S'.table.sessions[t].rtc.Some? ==>
                  S'.table.sessions[t].nextTimeout.Some?)
            && S' == S1.(table := S1.table.(calls := S'.table.calls)) && S'.table.calls.Keys <= S1.table.calls.Keys
            && (forall k :: k in S1.table.calls ==>
                  if Overdue(S1.table.calls[k], now, S1.env.cfg.idleReap) then k !in S'.table.calls
                  else k in S'.table.calls && S'.table.calls[k] == S1.table.calls[k])
            && (forall k :: k in S'.table.calls && S'.table.calls[k].emptySince.Some? ==>
                  S'.table.calls[k].emptySince.value + S'.env.cfg.idleReap > now)
  {
    hide Rosters, Mesh, NamesOk, LogsOk, SignalingOk, MediaOk, DrainReady, TimeOutEach;
    var S1 := TimeOutEach(S, due, failing);
    TimeOutEachKeeps(S, due, failing);
    DrainReadyKeeps(S1);
    var S2 := DrainReady(S1);
    CallsGoKeeps(S2, Reap(S2, now).table.calls);
    EmptyIffIdle(S2);
  }

  lemma EmptyIffIdle(S: Srv)
    requires Inv(S)
    ensures forall k :: k in S.table.calls ==>
              (S.table.calls[k].emptySince.Some? <==> S.table.calls[k].participants == [])
  {
    hide Mesh, NamesOk, LogsOk, SignalingOk, MediaOk, TimersOk, PhaseOk, Seated;
  }

  // ---- whole runs ----------------------------------------------------------------

  /** The one way to take the loop down: an admitted join whose acknowledgement the client's channel does not take. */
  ghost predicate AckLost(S: Srv, input: Input) {
    && input.SessionFrame? && input.frame.Join? && input.sid in S.table.sessions
    && Admitted(S, input.sid, input.frame.token)
    && !S.env.w.delivers(AckTick(S, input.sid, input.frame.token))
  }

  lemma DispatchKeeps(S: Srv, sid: Sid, frame: ClientFrame)
    requires Inv(S) && !S.loop.crashed && sid in S.table.sessions
    ensures var S' := DispatchFrame(S, sid, frame);
            && (S'.loop.crashed <==> AckLost(S, SessionFrame(sid, frame)))
            && (!S'.loop.crashed ==> Inv(S'))
  {
    hide Inv, HandleJoin, HandleOffer, HandleAnswer, HandleIce, CloseSession, Admitted;
    match frame
    case Join(token) => HandleJoinKeeps(S, sid, token);
    case ClientOffer(offer) => HandleOfferKeeps(S, sid, offer);
    case ClientAnswer(answer) => HandleAnswerKeeps(S, sid, answer);
    case Ice(parses) => HandleIceKeeps(S, sid, parses);
    case ClientBye =>
      assert InvDuring(S, {}, {}) by { Unfold(S); }
      CloseKeeps(S, sid, Some(Bye), {}, {});
      Fold(CloseSession(S, sid, Some(Bye)));
  }

  lemma Unfold(S: Srv)
    requires Inv(S)
    ensures InvDuring(S, {}, {})
  {
  }

  lemma Fold(S: Srv)
    requires InvDuring(S, {}, {})
    ensures Inv(S)
  {
  }

  /** One input: the loop survives it with its invariant, and panics exactly when an acknowledgement is lost. */
  lemma StepKeeps(S: Srv, input: Input)
    requires Inv(S) && !S.loop.crashed && Possible(S, input)
    ensures Step(S, input).loop.crashed <==> AckLost(S, input)
    ensures !Step(S, input).loop.crashed ==> Inv(Step(S, input))
  {
    hide Inv, DispatchFrame, DrainReady, CloseSession, HandleTime, HandleDrop, Admitted;
    match input
    case RegisterSlots(owner, entries) => assert Inv(Step(S, input)) by { RegisterKeeps(S, owner, entries); }
    case DropOwner(owner, order) => DropKeeps(S, owner, order);
    case OpenSession(owner, callerWaits) => OpenKeeps(S, owner, callerWaits);
    case SessionFrame(sid, frame) =>
      if sid in S.table.sessions {
        DispatchKeeps(S, sid, frame);
        var S1 := DispatchFrame(S, sid, frame);
        if !S1.loop.crashed { DrainReadyKeeps(S1); }
      }
    case SessionClosed(sid) => Unfold(S); CloseKeeps(S, sid, None, {}, {}); Fold(CloseSession(S, sid, None));
    case PacketIn(route, events) => if route.Some? { PacketKeeps(S, route.value, events); }
    case Time(now, due, failing) => TimeKeeps(S, now, due, failing);
  }

  lemma RegisterKeeps(S: Srv, owner: seq<byte>, entries: seq<SlotEntry>)
    requires Inv(S)
    ensures Inv(HandleRegister(S, owner, entries))
  {
    hide Rosters, Mesh, NamesOk, LogsOk, SignalingOk, MediaOk, TimersOk;
  }

  lemma {:induction false} RunKeepsFrom(S: Srv, inputs: seq<Input>)
    requires Inv(S) && !S.loop.crashed && PossibleRun(S, inputs)
    ensures !Run(S, inputs).loop.crashed ==> Inv(Run(S, inputs))
    decreases |inputs|
  {
    hide Inv, Step, Possible;
    if inputs != [] {
      StepKeeps(S, inputs[0]);
      var S1 := Step(S, inputs[0]);
      if !S1.loop.crashed { RunKeepsFrom(S1, inputs[1..]); }
    }
  }

  /** Every state reachable without a panic, from an empty server, under any behaviour of clients, network and clock. */
  lemma RunKeeps(w: World, cfg: Cfg, inputs: seq<Input>)
    requires PossibleRun(Start(w, cfg), inputs)
    ensures !Run(Start(w, cfg), inputs).loop.crashed ==> Inv(Run(Start(w, cfg), inputs))
  {
    hide Inv, Run, PossibleRun;
    StartKeeps(w, cfg);
    RunKeepsFrom(Start(w, cfg), inputs);
  }
}
