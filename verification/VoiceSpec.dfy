/** The event loop as functions from state to state, one per handler of the server. */
module VoiceSpec {
  import opened Basics
  import opened VoiceTypes

  // ---- channels and lifecycle ------------------------------------------

  function Log(S: Srv, sid: Sid): seq<ServerFrame> {
    if sid in S.past.sent then S.past.sent[sid] else []
  }

  /** One more question asked of the outside. */
  function Ticked(S: Srv): Srv { S.(loop := S.loop.(tick := S.loop.tick + 1)) }

  /** `to_client.try_send(frame)`: the frame is delivered or not; either way one question was asked. */
  function TrySend(S: Srv, sid: Sid, frame: ServerFrame): Srv {
    if S.env.w.delivers(S.loop.tick)
    then Ticked(S).(past := S.past.(sent := S.past.sent[sid := Log(S, sid) + [frame]]))
    else Ticked(S)
  }

  /** No source is listed twice. */
  predicate Distinct(q: seq<Source>) {
    forall i, j :: 0 <= i < j < |q| ==> q[i].src != q[j].src
  }

  function WithoutSource(q: seq<Source>, x: Sid): (r: seq<Source>)
    ensures forall e :: e in r <==> e in q && e.src != x
    ensures (forall e :: e in q ==> e.src != x) ==> r == q
    ensures Distinct(q) ==> Distinct(r)
  {
    if q == [] then []
    else
      assert q == [q[0]] + q[1..];
      var rest := WithoutSource(q[1..], x);
      if q[0].src == x then rest else [q[0]] + rest
  }

  function Forget(s: Session, gone: Sid): Session {
    s.(tx := s.tx.(slots := s.tx.slots - {gone}, queued := WithoutSource(s.tx.queued, gone)))
  }

  function SetSession(S: Srv, sid: Sid, s: Session): Srv {
    S.(table := S.table.(sessions := S.table.sessions[sid := s]))
  }

  function SetCall(S: Srv, key: CallKey, call: Call): Srv {
    S.(table := S.table.(calls := S.table.calls[key := call]))
  }

  function SetQueue(s: Session, q: seq<Source>): Session { s.(tx := s.tx.(queued := q)) }

  function MarkDirty(S: Srv, sid: Sid): Srv {
    S.(loop := S.loop.(dirty := S.loop.dirty + [sid]))
  }

  function ForgetOne(S: Srv, p: Sid, gone: Sid, sfu: SfuId): Srv {
    if p !in S.table.sessions then S
    else TrySend(SetSession(S, p, Forget(S.table.sessions[p], gone)), p, PeerLeft(sfu))
  }

  function ForgetAll(S: Srv, rest: seq<Sid>, gone: Sid, sfu: SfuId): Srv
    decreases |rest|
  {
    if rest == [] then S
    else ForgetAll(ForgetOne(S, rest[0], gone, sfu), rest[1..], gone, sfu)
  }

  /** Take `gone` off the roster of `key`; an emptied roster starts the idle clock. */
  function Unseat(S: Srv, key: CallKey, gone: Sid): Srv
    requires key in S.table.calls
  {
    var call := S.table.calls[key];
    var rest := Without(call.participants, gone);
    if rest == []
    then Ticked(SetCall(S, key, call.(participants := rest, emptySince := Some(S.env.w.now(S.loop.tick)))))
    else SetCall(S, key, call.(participants := rest))
  }

  /** The part of closing that reads only the closed session's call and name. */
  function Leave(S: Srv, gone: Sid, callKey: Option<CallKey>, sfu: SfuId): Srv {
    if callKey.None? || callKey.value !in S.table.calls then S
    else
      var S1 := Unseat(S, callKey.value, gone);
      ForgetAll(S1, S1.table.calls[callKey.value].participants, gone, sfu)
  }

  function SendFinal(S: Srv, sid: Sid, final: Option<ServerFrame>): Srv {
    if final.Some? then TrySend(S, sid, final.value) else S
  }

  function RemoveSession(S: Srv, sid: Sid): Srv {
    S.(table := S.table.(sessions := S.table.sessions - {sid}))
  }

  function CloseSession(S: Srv, sid: Sid, final: Option<ServerFrame>): Srv {
    if sid !in S.table.sessions then S
    else
      var s := S.table.sessions[sid];
      Leave(SendFinal(RemoveSession(S, sid), sid, final), sid, s.callKey, s.sfuId)
  }

  function Fail(S: Srv, sid: Sid, code: ErrorCode): Srv {
    CloseSession(S, sid, Some(Error(code)))
  }

  /** Deliver a frame, or close a session whose channel is full or gone. */
  function Send(S: Srv, sid: Sid, frame: ServerFrame): Srv {
    if sid !in S.table.sessions then S
    else if S.env.w.delivers(S.loop.tick) then TrySend(S, sid, frame)
    else CloseSession(TrySend(S, sid, frame), sid, None)
  }

  /** An `expect` or an index that does not hold takes the whole event loop down. */
  function Crash(S: Srv): Srv { S.(loop := S.loop.(crashed := true)) }

  // ---- negotiation -------------------------------------------------------

  /** The queued sources that are still in the call and have no slot yet. */
  function Fresh(q: seq<Source>, roster: seq<Sid>, slots: map<Sid, TxSlot>): seq<Source> {
    if q == [] then []
    else if q[0].src in roster && q[0].src !in slots then [q[0]] + Fresh(q[1..], roster, slots)
    else Fresh(q[1..], roster, slots)
  }

  /** One undeclared slot per new source; the i-th gets m-line `mid + i` and the i-th next SSRC. */
  function AddSlots(slots: map<Sid, TxSlot>, q: seq<Source>, mid: Mid, ssrc: nat): map<Sid, TxSlot>
    decreases |q|
  {
    if q == [] then slots
    else AddSlots(slots[q[0].src := TxSlot(mid, Allocated(ssrc + 1), false)], q[1..], mid + 1, ssrc + 1)
  }

  function Roster(S: Srv, callKey: Option<CallKey>): seq<Sid> {
    if callKey.Some? && callKey.value in S.table.calls then S.table.calls[callKey.value].participants else []
  }

  function AnnounceAll(S: Srv, sid: Sid, q: seq<Source>, mid: Mid): Srv
    decreases |q|
  {
    if q == [] then S
    else AnnounceAll(Send(S, sid, PeerJoined(q[0].sfu, mid)), sid, q[1..], mid + 1)
  }

  /** The session once its next re-offer is built: m-lines added, slots reserved, offer in flight. */
  function Offered(s: Session, q: seq<Source>): Session
    requires s.rtc.Some?
  {
    s.(rtc := Some(s.rtc.value.(nextMid := s.rtc.value.nextMid + |q|)),
       tx := Links(AddSlots(s.tx.slots, q, s.rtc.value.nextMid, s.nextSsrc), [], true),
       nextSsrc := s.nextSsrc + |q|)
  }

  /** `n` consecutive m-lines from `mid` on. */
  function Mids(mid: Mid, n: nat): seq<Mid> { seq(n, i requires 0 <= i => mid + i) }

  function MaybeNegotiate(S: Srv, sid: Sid): Srv {
    if sid !in S.table.sessions then S
    else
      var s := S.table.sessions[sid];
      if !s.phase.Steady? || s.tx.offerPending || s.tx.queued == [] then S
      else
        var q := Fresh(s.tx.queued, Roster(S, s.callKey), s.tx.slots);
        if q == [] then SetSession(S, sid, SetQueue(s, []))
        else if s.rtc.None? then Crash(S)
        else
          var mid := s.rtc.value.nextMid;
          var S1 := MarkDirty(SetSession(S, sid, Offered(s, q)), sid);
          AnnounceAll(Send(S1, sid, Offer(Mids(mid, |q|))), sid, q, mid)
  }

  // ---- signaling frames ----------------------------------------------------

  /** The members of `ps` other than `sid` that have a session, with their names. */
  function Listed(S: Srv, ps: seq<Sid>, sid: Sid): seq<Source> {
    if ps == [] then []
    else if ps[0] != sid && ps[0] in S.table.sessions
    then [Source(ps[0], S.table.sessions[ps[0]].sfuId)] + Listed(S, ps[1..], sid)
    else Listed(S, ps[1..], sid)
  }

  function LiveCalls(calls: map<CallKey, Call>): set<CallKey> {
    set k | k in calls && calls[k].participants != []
  }

  function Min(a: int, b: int): int { if a < b then a else b }

  function Max(a: int, b: int): int { if a < b then b else a }

  /** Effective participant cap of a new call: the slot's wish under the relay's ceiling, at least two. */
  function EffectiveCap(slot: SlotInfo, relayMax: nat): (cap: nat)
    ensures cap >= 2 && (cap <= relayMax || cap == 2)
    ensures slot.maxParticipants.Some? && 2 <= slot.maxParticipants.value <= relayMax ==>
              cap == slot.maxParticipants.value
    ensures relayMax >= 2 && (slot.maxParticipants.Some? ==> slot.maxParticipants.value > relayMax) ==> cap == relayMax
    ensures relayMax < 2 || (slot.maxParticipants.Some? && slot.maxParticipants.value < 2) ==> cap == 2
  {
    Max(Min(if slot.maxParticipants.Some? then slot.maxParticipants.value else relayMax, relayMax), 2)
  }

  function NewCall(S: Srv, key: CallKey): Srv
    requires key in S.registry.slots
  {
    var cap := EffectiveCap(S.registry.slots[key], S.env.cfg.maxParticipants);
    Ticked(SetCall(S, key, Call(cap, [], Some(S.env.w.now(S.loop.tick)))))
  }

  function Admit(S: Srv, sid: Sid, key: CallKey): Srv
    requires sid in S.table.sessions && key in S.table.calls
  {
    var call := S.table.calls[key];
    var s := S.table.sessions[sid];
    S.(table := Table(S.table.sessions[sid := s.(rtc := Some(NewRtc()), phase := AwaitingOffer,
                                                 sfuId := S.loop.idCounter + 1, callKey := Some(key))],
                      S.table.calls[key := call.(participants := call.participants + [sid], emptySince := None)]),
       loop := S.loop.(idCounter := S.loop.idCounter + 1, dirty := S.loop.dirty + [sid]),
       past := S.past.(room := S.past.room[sid := key]))
  }

  function Introduce(S: Srv, e: Sid, sid: Sid, sfu: SfuId): Srv {
    MaybeNegotiate(if e in S.table.sessions
                   then SetSession(S, e,
                                   SetQueue(S.table.sessions[e], S.table.sessions[e].tx.queued + [Source(sid, sfu)]))
                   else S, e)
  }

  function IntroduceAll(S: Srv, existing: seq<Source>, sid: Sid, sfu: SfuId): Srv
    decreases |existing|
  {
    if existing == [] then S
    else IntroduceAll(Introduce(S, existing[0].src, sid, sfu), existing[1..], sid, sfu)
  }

  function Names(q: seq<Source>): seq<SfuId> {
    seq(|q|, i requires 0 <= i < |q| => q[i].sfu)
  }

  /** Admission of `sid` into the open call `key`, from the roster change to the last introduction. */
  function Seat(S: Srv, sid: Sid, key: CallKey): Srv
    requires sid in S.table.sessions && key in S.table.calls
  {
    var S1 := Admit(S, sid, key);
    var existing := Listed(S1, S1.table.calls[key].participants, sid);
    var sfu := S1.loop.idCounter;
    var S2 := Send(S1, sid, JoinAck(sfu, S1.table.calls[key].cap, Names(existing)));
    if sid !in S2.table.sessions then Crash(S2)  // the map is indexed by a key the send removed
    else IntroduceAll(S2, existing, sid, sfu)
  }

  function JoinKey(S: Srv, sid: Sid, token: seq<byte>): CallKey
    requires sid in S.table.sessions
  {
    CallKey(S.table.sessions[sid].owner, S.env.w.hash(token))
  }

  /** The refusals that come before any call is touched. */
  function JoinError(S: Srv, sid: Sid, token: seq<byte>): Option<ErrorCode>
    requires sid in S.table.sessions
  {
    var key := JoinKey(S, sid, token);
    if !S.table.sessions[sid].phase.AwaitingJoin? then Some(Protocol)
    else if |token| != 32 then Some(BadToken)
    else if key !in S.registry.slots then Some(BadToken)
    else if key !in S.table.calls && |LiveCalls(S.table.calls)| >= S.env.cfg.maxConcurrentCalls then Some(Busy)
    else None
  }

  function HandleJoin(S: Srv, sid: Sid, token: seq<byte>): Srv
    requires sid in S.table.sessions
  {
    var err := JoinError(S, sid, token);
    if err.Some? then Fail(S, sid, err.value)
    else
      var key := JoinKey(S, sid, token);
      var S1 := if key in S.table.calls then S else NewCall(S, key);
      if |S1.table.calls[key].participants| >= S1.table.calls[key].cap
      then CloseSession(TrySend(S1, sid, Full), sid, None)
      else Seat(S1, sid, key)
  }

  function HandleOffer(S: Srv, sid: Sid, offer: OfferSdp): Srv
    requires sid in S.table.sessions
  {
    var s := S.table.sessions[sid];
    if !s.phase.AwaitingOffer? || offer.BadOffer? then Fail(S, sid, Protocol)
    else if s.rtc.None? then Crash(S)
    else if offer.RefusedOffer? then Fail(S, sid, Protocol)
    else if s.callKey.None? then Crash(S)
    else
      var S1 := MarkDirty(SetSession(S, sid, s.(opusPt := offer.opusPt, phase := Steady)), sid);
      var S2 := Send(S1, sid, Answer);
      var others := Listed(S2, Roster(S2, s.callKey), sid);
      var S3 := if sid in S2.table.sessions then SetSession(S2, sid, SetQueue(S2.table.sessions[sid], others)) else S2;
      MaybeNegotiate(S3, sid)
  }

  /** A slot after the client answered the offer that made its m-line. */
  function Adopt(slot: TxSlot, streams: set<Mid>): TxSlot {
    if slot.declared then slot
    else slot.(ssrc := if slot.mid in streams then Announced(slot.mid) else slot.ssrc, declared := true)
  }

  function HeardFrom(S: Srv, src: Sid): seq<Packet> {
    if src in S.past.heard then S.past.heard[src] else []
  }

  function SetStream(S: Srv, k: StreamKey, st: Stream): Srv {
    S.(past := S.past.(streams := S.past.streams[k := st]))
  }

  /** Declare the slot for `src`, opening its outbound stream, when it is not declared yet. */
  function DeclareOne(S: Srv, sid: Sid, src: Sid, streams: set<Mid>): Srv {
    var ss := S.table.sessions;
    if sid !in ss || src !in ss[sid].tx.slots || ss[sid].tx.slots[src].declared then S
    else
      var s := ss[sid];
      var slot := Adopt(s.tx.slots[src], streams);
      SetStream(SetSession(S, sid, s.(tx := s.tx.(slots := s.tx.slots[src := slot]))),
                StreamKey(sid, slot.ssrc), Stream(src, |HeardFrom(S, src)|, []))
  }

  /** Every slot of `sid` for a source below `n` declared. The visits commute, so one order stands for all. */
  function DeclareBelow(S: Srv, sid: Sid, n: Sid, streams: set<Mid>): Srv {
    if n == 0 then S else DeclareOne(DeclareBelow(S, sid, n - 1, streams), sid, n - 1, streams)
  }

  function CountAnswer(S: Srv, sid: Sid): Srv {
    var n := if sid in S.past.accepted then S.past.accepted[sid] else 0;
    S.(past := S.past.(accepted := S.past.accepted[sid := n + 1]))
  }

  function HandleAnswer(S: Srv, sid: Sid, answer: AnswerSdp): Srv
    requires sid in S.table.sessions
  {
    var s := S.table.sessions[sid];
    if !s.phase.Steady? || !s.tx.offerPending || answer.BadAnswer? then Fail(S, sid, Protocol)
    else if s.rtc.None? then Crash(S)
    else
      var S1 := SetSession(S, sid, s.(tx := s.tx.(offerPending := false)));
      if answer.RefusedAnswer? then Fail(S1, sid, Internal)
      else MaybeNegotiate(MarkDirty(DeclareBelow(CountAnswer(S1, sid), sid, S.loop.nextSid, answer.streams), sid), sid)
  }

  function HandleIce(S: Srv, sid: Sid, parses: bool): Srv
    requires sid in S.table.sessions
  {
    if S.table.sessions[sid].rtc.None? then Fail(S, sid, Protocol)
    else if parses then MarkDirty(S, sid)
    else S
  }

  // ---- media -------------------------------------------------------------

  /** May a packet of `src` be written to `t` now? */
  predicate Writable(S: Srv, t: Sid, src: Sid) {
    && t in S.table.sessions && src in S.table.sessions[t].tx.slots && S.table.sessions[t].tx.slots[src].declared
    && S.table.sessions[t].opusPt.Some? && S.table.sessions[t].rtc.Some?
    && StreamKey(t, S.table.sessions[t].tx.slots[src].ssrc) in S.past.streams
  }

  function ForwardTo(S: Srv, t: Sid, src: Sid, p: Packet): Srv {
    if !Writable(S, t, src) then S
    else
      var k := StreamKey(t, S.table.sessions[t].tx.slots[src].ssrc);
      MarkDirty(SetStream(S, k, S.past.streams[k].(log := S.past.streams[k].log + [p])), t)
  }

  function FanOut(S: Srv, targets: seq<Sid>, src: Sid, p: Packet): Srv
    decreases |targets|
  {
    if targets == [] then S
    else FanOut(ForwardTo(S, targets[0], src, p), targets[1..], src, p)
  }

  function ForwardRtp(S: Srv, src: Sid, p: Packet): Srv {
    var ss := S.table.sessions;
    if src !in ss || ss[src].callKey.None? || ss[src].callKey.value !in S.table.calls then S
    else FanOut(S.(past := S.past.(heard := S.past.heard[src := HeardFrom(S, src) + [p]])),
                Without(Roster(S, S.table.sessions[src].callKey), src), src, p)
  }

  function ForwardAll(S: Srv, src: Sid, ps: seq<Packet>): Srv
    decreases |ps|
  {
    if ps == [] then S else ForwardAll(ForwardRtp(S, src, ps[0]), src, ps[1..])
  }

  /** How many inbound packets one polling hands out. */
  function Taken(poll: Poll, inbound: seq<Packet>): nat {
    match poll.end
    case Idle(_) => |inbound|
    case PollError(n) => if n < |inbound| then n else |inbound|
  }

  function Polled(s: Session, poll: Poll): Session
    requires s.rtc.Some?
  {
    s.(rtc := Some(s.rtc.value.(inbound := s.rtc.value.inbound[Taken(poll, s.rtc.value.inbound)..])),
       nextTimeout := if poll.end.Idle? then Some(poll.end.next) else s.nextTimeout)
  }

  predicate Closes(poll: Poll) {
    poll.nudgeFails || poll.disconnected || !poll.alive || poll.end.PollError?
  }

  function DrainSession(S: Srv, sid: Sid): Srv {
    if sid !in S.table.sessions || S.table.sessions[sid].rtc.None? then S
    else
      var poll := S.env.w.poll(S.loop.tick);
      var inbound := S.table.sessions[sid].rtc.value.inbound;
      var S1 := SetSession(Ticked(S), sid, Polled(S.table.sessions[sid], poll));
      var S2 := ForwardAll(S1, sid, inbound[..Taken(poll, inbound)]);
      if Closes(poll) then CloseSession(S2, sid, None) else S2
  }
}
