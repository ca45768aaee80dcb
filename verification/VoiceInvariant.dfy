/** What every step of the event loop keeps, part by part. */
module VoiceInvariant {
  import opened Basics
  import opened VoiceTypes
  import opened VoiceSpec

  type Sessions = map<Sid, Session>
  type Calls = map<CallKey, Call>

  // ---- rosters -----------------------------------------------------------

  /**
   * A call's roster lists live sessions of this very call, once each, within the cap; only an empty roster has an idle
   * clock.
   */
  ghost predicate CallOk(ss: Sessions, key: CallKey, call: Call) {
    && NoDup(call.participants)
    && |call.participants| <= call.cap
    && 2 <= call.cap
    && (call.emptySince.Some? <==> call.participants == [])
    && forall p :: p in call.participants ==> p in ss && ss[p].callKey == Some(key)
  }

  /** A session that names a call is on that call's roster. */
  ghost predicate Seated(s: Session, sid: Sid, cs: Calls, room: map<Sid, CallKey>) {
    && (s.callKey.Some? ==>
          && s.callKey.value in cs && sid in cs[s.callKey.value].participants
          && s.callKey.value.owner == s.owner
          && sid in room && room[sid] == s.callKey.value)
    && (s.callKey.None? ==> sid !in room)
  }

  /** Which fields are set is a function of the signaling phase. */
  ghost predicate PhaseOk(s: Session) {
    && (s.phase.AwaitingJoin? <==> s.rtc.None?)
    && (s.phase.AwaitingJoin? <==> s.callKey.None?)
    && (!s.phase.Steady? ==> s.tx.slots == map[] && !s.tx.offerPending)
    && (s.phase.AwaitingJoin? ==> s.tx.queued == [] && s.nextTimeout.None?)
  }

  ghost predicate Rosters(ss: Sessions, cs: Calls, room: map<Sid, CallKey>, nextSid: Sid) {
    && (forall k :: k in cs ==> CallOk(ss, k, cs[k]))
    && (forall t :: t in ss ==> t < nextSid && Seated(ss[t], t, cs, room) && PhaseOk(ss[t]))
  }

  // ---- mesh --------------------------------------------------------------

  /** `p` is another participant of the call that session `t` (record `s`) is in. */
  ghost predicate Peer(s: Session, cs: Calls, t: Sid, p: Sid) {
    p != t && s.callKey.Some? && s.callKey.value in cs && p in cs[s.callKey.value].participants
  }

  ghost predicate Queues(s: Session, p: Sid) {
    exists e :: e in s.tx.queued && e.src == p
  }

  /** The (target, source) pairs a handler still has to introduce. */
  type Debts = set<(Sid, Sid)>

  /** Slots and queue name other participants of the same call, each at most once. */
  ghost predicate Apart(s: Session, cs: Calls, t: Sid, owed: Debts) {
    && (forall p :: p in s.tx.slots ==> Peer(s, cs, t, p))
    && (forall e :: e in s.tx.queued ==> Peer(s, cs, t, e.src) && e.src !in s.tx.slots)
    && Distinct(s.tx.queued)
    && (forall p :: (t, p) in owed ==> p !in s.tx.slots && !Queues(s, p))
  }

  /** Nobody in the call is missing from slots and queue together. */
  ghost predicate Covers(s: Session, cs: Calls, t: Sid, owed: Debts) {
    s.phase.Steady? ==> forall p :: Peer(s, cs, t, p) ==> p in s.tx.slots || Queues(s, p) || (t, p) in owed
  }

  /** With no offer in flight there is nothing left to offer and every slot carries audio. */
  ghost predicate AtRest(s: Session, loose: bool) {
    s.phase.Steady? && !s.tx.offerPending ==>
      (!loose ==> s.tx.queued == []) && forall p :: p in s.tx.slots ==> s.tx.slots[p].declared
  }

  ghost predicate Mesh(ss: Sessions, cs: Calls, owed: Debts, loose: set<Sid>) {
    forall t :: t in ss ==> Apart(ss[t], cs, t, owed) && Covers(ss[t], cs, t, owed) && AtRest(ss[t], t in loose)
  }

  // ---- names and timers ----------------------------------------------------

  ghost predicate NamesOk(ss: Sessions, idCounter: nat) {
    && (forall t :: t in ss && ss[t].callKey.Some? ==> ss[t].sfuId <= idCounter)
    && (forall t, u :: t in ss && u in ss && t != u && ss[t].callKey.Some? && ss[u].callKey.Some? ==>
          ss[t].sfuId != ss[u].sfuId)
    && (forall t, e :: t in ss && e in ss[t].tx.queued ==> e.src in ss && ss[e.src].sfuId == e.sfu)
  }

  /** An `Rtc` without a timer is about to be drained. */
  ghost predicate TimersOk(ss: Sessions, dirty: seq<Sid>) {
    forall t :: t in ss && ss[t].rtc.Some? && ss[t].nextTimeout.None? ==> t in dirty
  }

  /** The same, with `but` not looked at: it has just been taken off the work list. */
  ghost predicate TimersBut(ss: Sessions, dirty: seq<Sid>, but: Sid) {
    forall t :: t in ss && t != but && ss[t].rtc.Some? && ss[t].nextTimeout.None? ==> t in dirty
  }

  // ---- signaling history ---------------------------------------------------

  function Offers(log: seq<ServerFrame>): nat {
    if log == [] then 0 else Offers(log[..|log| - 1]) + (if log[|log| - 1].Offer? then 1 else 0)
  }

  ghost predicate Told(log: seq<ServerFrame>, sfu: SfuId) {
    exists i :: 0 <= i < |log| && log[i].PeerJoined? && log[i].sfu == sfu
  }

  ghost predicate OfferedBefore(log: seq<ServerFrame>, n: nat, mid: Mid)
    requires n <= |log|
  {
    exists i :: 0 <= i < n && log[i].Offer? && mid in log[i].mids
  }

  /** Each name is announced at most once, and only after the offer that carries its m-line. */
  ghost predicate LogOk(log: seq<ServerFrame>) {
    && (forall i, j :: 0 <= i < j < |log| && log[i].PeerJoined? && log[j].PeerJoined? ==> log[i].sfu != log[j].sfu)
    && (forall i :: 0 <= i < |log| && log[i].PeerJoined? ==> OfferedBefore(log, i, log[i].mid))
  }

  /** Offers delivered minus answers accepted is one exactly while an offer is in flight. */
  ghost predicate Alternates(log: seq<ServerFrame>, answers: nat, pending: bool) {
    Offers(log) == answers + (if pending then 1 else 0)
  }

  /** Whoever was announced to `t` and is still here has a slot at `t`. */
  ghost predicate ToldHaveSlots(ss: Sessions, t: Sid, log: seq<ServerFrame>)
    requires t in ss
  {
    forall q :: q in ss && ss[q].callKey.Some? && Told(log, ss[q].sfuId) ==> q in ss[t].tx.slots
  }

  ghost predicate LogsOk(sent: map<Sid, seq<ServerFrame>>, accepted: map<Sid, nat>, nextSid: Sid) {
    && (forall t: Sid :: t in sent <==> t < nextSid)
    && (forall t: Sid :: t in accepted <==> t < nextSid)
    && (forall t :: t in sent ==> LogOk(sent[t]))
    && (forall t :: t in sent && t in accepted ==> accepted[t] <= Offers(sent[t]) <= accepted[t] + 1)
  }

  ghost predicate SignalingOk(ss: Sessions, sent: map<Sid, seq<ServerFrame>>, accepted: map<Sid, nat>, idCounter: nat) {
    && (forall t :: t in ss ==>
          && t in sent && t in accepted
          && Alternates(sent[t], accepted[t], ss[t].tx.offerPending)
          && ToldHaveSlots(ss, t, sent[t]))
    && (forall t, i :: t in sent && 0 <= i < |sent[t]| && sent[t][i].PeerJoined? ==> sent[t][i].sfu <= idCounter)
  }

  // ---- media history -------------------------------------------------------

  /** A slot and the stream behind it. */
  ghost predicate SlotOk(s: Session, t: Sid, src: Sid, streams: map<StreamKey, Stream>)
    requires src in s.tx.slots && s.rtc.Some?
  {
    var slot := s.tx.slots[src];
    && slot.mid < s.rtc.value.nextMid
    && (slot.declared ==> StreamKey(t, slot.ssrc) in streams && streams[StreamKey(t, slot.ssrc)].source == src)
    && (!slot.declared ==>
          && slot.ssrc.Allocated? && slot.ssrc.n <= s.nextSsrc
          && StreamKey(t, slot.ssrc) !in streams
          && StreamKey(t, Announced(slot.mid)) !in streams)
  }

  /** Reserved m-lines and SSRCs of one session are its own. */
  ghost predicate SlotsDistinct(s: Session) {
    var m := s.tx.slots;
    forall a, b :: a in m && b in m && a != b && !m[a].declared && !m[b].declared ==>
      m[a].mid != m[b].mid && m[a].ssrc != m[b].ssrc
  }

  /** What a stream of a live target has carried: everything its source said since the slot was declared. */
  ghost predicate Carries(st: Stream, s: Session, heard: map<Sid, seq<Packet>>) {
    && st.source in heard && st.start <= |heard[st.source]|
    && st.log == (if s.opusPt.Some? then heard[st.source][st.start..] else [])
  }

  /** A stream of a live target is that target's slot for the source, as long as the source is here. */
  ghost predicate StreamLive(k: StreamKey, st: Stream, ss: Sessions, heard: map<Sid, seq<Packet>>) {
    k.target in ss ==>
      var s := ss[k.target];
      && s.rtc.Some? && s.phase.Steady?
      && (k.ssrc.Announced? ==> k.ssrc.mid < s.rtc.value.nextMid)
      && (k.ssrc.Allocated? ==> k.ssrc.n <= s.nextSsrc)
      && Carries(st, s, heard)
      && (st.source in ss ==>
            st.source in s.tx.slots && s.tx.slots[st.source].declared && s.tx.slots[st.source].ssrc == k.ssrc)
  }

  /** Live or not, a stream carried an unbroken, unmodified stretch of one source in its own call. */
  ghost predicate StreamPast(k: StreamKey, st: Stream, room: map<Sid, CallKey>, heard: map<Sid, seq<Packet>>) {
    && k.target in room && st.source in room && room[k.target] == room[st.source] && k.target != st.source
    && st.source in heard && st.start <= |heard[st.source]|
    && st.log <= heard[st.source][st.start..]
  }

  ghost predicate MediaOk(ss: Sessions, streams: map<StreamKey, Stream>, heard: map<Sid, seq<Packet>>,
                          room: map<Sid, CallKey>, nextSid: Sid) {
    && (forall t: Sid :: t in heard <==> t < nextSid)
    && (forall t :: t in room ==> t < nextSid)
    && (forall k :: k in streams ==> StreamLive(k, streams[k], ss, heard) && StreamPast(k, streams[k], room, heard))
    && (forall t, src :: t in ss && src in ss[t].tx.slots ==> ss[t].rtc.Some? && SlotOk(ss[t], t, src, streams))
    && (forall t :: t in ss ==> SlotsDistinct(ss[t]))
  }

  // ---- all together --------------------------------------------------------

  /**
   * Everything but the timers, in the middle of a handler: `owed` introductions and `loose` queues are still to be
   * dealt with.
   */
  ghost predicate Standing(S: Srv, owed: Debts, loose: set<Sid>) {
    && Rosters(S.table.sessions, S.table.calls, S.past.room, S.loop.nextSid)
    && Mesh(S.table.sessions, S.table.calls, owed, loose)
    && NamesOk(S.table.sessions, S.loop.idCounter)
    && LogsOk(S.past.sent, S.past.accepted, S.loop.nextSid)
    && SignalingOk(S.table.sessions, S.past.sent, S.past.accepted, S.loop.idCounter)
    && MediaOk(S.table.sessions, S.past.streams, S.past.heard, S.past.room, S.loop.nextSid)
  }

  ghost predicate InvDuring(S: Srv, owed: Debts, loose: set<Sid>) {
    Standing(S, owed, loose) && TimersOk(S.table.sessions, S.loop.dirty)
  }

  ghost predicate Inv(S: Srv) { InvDuring(S, {}, {}) }
}
