/** Forwarding and draining. */
module VoiceMedia {
  import opened Basics
  import opened VoiceTypes
  import opened VoiceSpec
  import opened VoiceInvariant
  import opened VoiceClose
  import opened VoiceSwap
  import opened VoiceGone
  import opened VoiceSend
  import opened VoiceNegotiate

  // ---- one packet ----------------------------------------------------------------

  /** The stream `k` is where a packet of `src` goes for one of the targets. */
  ghost predicate Written(S: Srv, targets: seq<Sid>, src: Sid, k: StreamKey) {
    k.target in targets && Writable(S, k.target, src) && S.table.sessions[k.target].tx.slots[src].ssrc == k.ssrc
  }

  /** Only logs of existing streams and the work list grow. */
  ghost predicate OnlyWrites(S: Srv, S': Srv) {
    && S' == S.(loop := S.loop.(dirty := S'.loop.dirty), past := S.past.(streams := S'.past.streams))
    && S'.past.streams.Keys == S.past.streams.Keys
    && S.loop.dirty <= S'.loop.dirty
  }

  /** One packet is appended, whole, to exactly the streams behind the source's declared slots. */
  lemma {:induction false} FanOutEffect(S: Srv, targets: seq<Sid>, src: Sid, p: Packet)
    requires NoDup(targets)
    ensures var S' := FanOut(S, targets, src, p);
            && OnlyWrites(S, S')
            && forall k :: k in S.past.streams ==>
                 S'.past.streams[k] == if Written(S, targets, src, k)
                                       then S.past.streams[k].(log := S.past.streams[k].log + [p])
                                       else S.past.streams[k]
    decreases |targets|
  {
    if targets != [] {
      var S1 := ForwardTo(S, targets[0], src, p);
      var rest := targets[1..];
      assert targets[0] !in rest && forall t :: t in targets <==> t == targets[0] || t in rest;
      FanOutEffect(S1, rest, src, p);
      forall k | k in S.past.streams
        ensures Written(S1, rest, src, k) <==> k.target != targets[0] && Written(S, targets, src, k)
      {
      }
    }
  }

  lemma ForwardEffect(S: Srv, src: Sid, p: Packet)
    requires src in S.table.sessions && S.table.sessions[src].callKey.Some?
    requires S.table.sessions[src].callKey.value in S.table.calls
    requires NoDup(S.table.calls[S.table.sessions[src].callKey.value].participants)
    ensures var S1 := S.(past := S.past.(heard := S.past.heard[src := HeardFrom(S, src) + [p]]));
            var targets := Without(Roster(S, S.table.sessions[src].callKey), src);
            var S' := ForwardRtp(S, src, p);
            && OnlyWrites(S1, S')
            && forall k :: k in S.past.streams ==>
                 S'.past.streams[k] == if Written(S, targets, src, k)
                                       then S.past.streams[k].(log := S.past.streams[k].log + [p])
                                       else S.past.streams[k]
  {
    hide FanOut, Without;
    var S1 := S.(past := S.past.(heard := S.past.heard[src := HeardFrom(S, src) + [p]]));
    var targets := Without(Roster(S, S.table.sessions[src].callKey), src);
    FanOutEffect(S1, targets, src, p);
    assert forall k :: Written(S1, targets, src, k) <==> Written(S, targets, src, k);
  }

  /** A target that streams for `src` is among those the packet goes to. */
  lemma StreamTarget(S: Srv, src: Sid, k: StreamKey)
    requires Standing(S, {}, {}) && src in S.table.sessions && k in S.past.streams && k.target in S.table.sessions
    requires S.past.streams[k].source == src
    ensures var targets := Without(Roster(S, S.table.sessions[src].callKey), src);
            Written(S, targets, src, k) <==> S.table.sessions[k.target].opusPt.Some?
  {
    hide NamesOk, LogsOk, SignalingOk, Covers, AtRest, Carries;
    var t := k.target;
    var s := S.table.sessions[t];
    assert StreamLive(k, S.past.streams[k], S.table.sessions, S.past.heard) && Apart(s, S.table.calls, t, {});
    assert Peer(s, S.table.calls, t, src) && CallOk(S.table.sessions, s.callKey.value, S.table.calls[s.callKey.value]);
    assert Seated(s, t, S.table.calls, S.past.room);
  }

  /** A packet is written only to streams that carry its source. */
  lemma WrittenSource(S: Srv, targets: seq<Sid>, src: Sid, k: StreamKey)
    requires MediaOk(S.table.sessions, S.past.streams, S.past.heard, S.past.room, S.loop.nextSid)
    requires k in S.past.streams && Written(S, targets, src, k)
    ensures S.past.streams[k].source == src && k.target in S.table.sessions
  {
    hide StreamLive, StreamPast, SlotsDistinct;
    assert SlotOk(S.table.sessions[k.target], k.target, src, S.past.streams);
  }

  lemma ForwardStream(S: Srv, src: Sid, p: Packet, k: StreamKey)
    requires Standing(S, {}, {}) && src in S.table.sessions && S.table.sessions[src].callKey.Some?
    requires S.table.sessions[src].callKey.value in S.table.calls && k in S.past.streams
    ensures var S' := ForwardRtp(S, src, p);
            && k in S'.past.streams
            && StreamLive(k, S'.past.streams[k], S'.table.sessions, S'.past.heard)
            && StreamPast(k, S'.past.streams[k], S'.past.room, S'.past.heard)
  {
    hide ForwardRtp, Rosters, Mesh, NamesOk, LogsOk, SignalingOk, Without, Written;
    assert NoDup(S.table.calls[S.table.sessions[src].callKey.value].participants) by { RosterNoDup(S, src); }
    ForwardEffect(S, src, p);
    var st := S.past.streams[k];
    var targets := Without(Roster(S, S.table.sessions[src].callKey), src);
    assert StreamLive(k, st, S.table.sessions, S.past.heard) && StreamPast(k, st, S.past.room, S.past.heard);
    if Written(S, targets, src, k) { WrittenSource(S, targets, src, k); }
    if k.target in S.table.sessions && st.source == src { StreamTarget(S, src, k); }
    if st.source == src {
      assert (S.past.heard[src] + [p])[st.start..] == S.past.heard[src][st.start..] + [p];
    }
  }

  lemma RosterNoDup(S: Srv, sid: Sid)
    requires Standing(S, {}, {}) && sid in S.table.sessions && S.table.sessions[sid].callKey.Some?
    ensures var key := S.table.sessions[sid].callKey.value;
            && key in S.table.calls
            && NoDup(S.table.calls[key].participants)
  {
    hide Mesh, NamesOk, LogsOk, SignalingOk, MediaOk, PhaseOk;
    assert Seated(S.table.sessions[sid], sid, S.table.calls, S.past.room);
  }

  lemma ForwardKeeps(S: Srv, src: Sid, p: Packet)
    requires Standing(S, {}, {})
    ensures var S' := ForwardRtp(S, src, p);
            && Standing(S', {}, {}) && S'.table == S.table && S.loop.dirty <= S'.loop.dirty
            && S'.loop.crashed == S.loop.crashed
  {
    hide Rosters, Mesh, NamesOk, LogsOk, SignalingOk, StreamLive, StreamPast, Written, FanOut, Without;
    if src in S.table.sessions && S.table.sessions[src].callKey.Some? {
      RosterNoDup(S, src);
      ForwardEffect(S, src, p);
      var S' := ForwardRtp(S, src, p);
      forall k | k in S'.past.streams
        ensures StreamLive(k, S'.past.streams[k], S'.table.sessions, S'.past.heard)
        ensures StreamPast(k, S'.past.streams[k], S'.past.room, S'.past.heard)
      {
        ForwardStream(S, src, p, k);
      }
      assert src < S.loop.nextSid by { Counted(S, src); }
      assert forall k :: k in S.past.streams ==> S'.past.streams[k].source == S.past.streams[k].source;
      forall t, q | t in S'.table.sessions && q in S'.table.sessions[t].tx.slots
        ensures S'.table.sessions[t].rtc.Some? && SlotOk(S'.table.sessions[t], t, q, S'.past.streams)
      {
        assert SlotOk(S.table.sessions[t], t, q, S.past.streams);
      }
    }
  }

  lemma Counted(S: Srv, sid: Sid)
    requires Standing(S, {}, {}) && sid in S.table.sessions
    ensures sid < S.loop.nextSid
  {
    hide Mesh, NamesOk, LogsOk, SignalingOk, MediaOk, PhaseOk, Seated, CallOk;
  }

  lemma {:induction false} ForwardAllKeeps(S: Srv, src: Sid, ps: seq<Packet>)
    requires Standing(S, {}, {})
    ensures var S' := ForwardAll(S, src, ps);
            && Standing(S', {}, {}) && S'.table == S.table && S.loop.dirty <= S'.loop.dirty
            && S'.loop.crashed == S.loop.crashed
    decreases |ps|
  {
    hide Standing, ForwardRtp;
    if ps != [] {
      ForwardKeeps(S, src, ps[0]);
      ForwardAllKeeps(ForwardRtp(S, src, ps[0]), src, ps[1..]);
    }
  }

  // ---- one session -----------------------------------------------------------------

  lemma PolledKeeps(S: Srv, sid: Sid, poll: Poll)
    requires Standing(S, {}, {}) && TimersBut(S.table.sessions, S.loop.dirty, sid)
    requires sid in S.table.sessions && S.table.sessions[sid].rtc.Some?
    ensures var S' := SetSession(Ticked(S), sid, Polled(S.table.sessions[sid], poll));
            Standing(S', {}, {}) && TimersBut(S'.table.sessions, S'.loop.dirty, sid)
  {
    hide Rosters, NamesOk, LogsOk, SignalingOk, MediaOk, Mesh;
    var ss, s, s' := S.table.sessions, S.table.sessions[sid], Polled(S.table.sessions[sid], poll);
    assert PhaseOk(s) && (forall e :: e in s.tx.queued ==> e.src in ss && ss[e.src].sfuId == e.sfu) by {
      RecordAt(S, sid);
    }
    SwapRosters(ss, S.table.calls, S.past.room, S.loop.nextSid, sid, s');
    SwapNames(ss, S.loop.idCounter, sid, s');
    SwapSignaling(ss, S.past.sent, S.past.accepted, S.loop.idCounter, sid, s');
    SwapMedia(ss, S.past.streams, S.past.heard, S.past.room, S.loop.nextSid, sid, s');
    SwapMesh(ss, S.table.calls, sid, s');
  }

  lemma RecordAt(S: Srv, sid: Sid)
    requires Standing(S, {}, {}) && sid in S.table.sessions
    ensures PhaseOk(S.table.sessions[sid])
    ensures forall e :: e in S.table.sessions[sid].tx.queued ==>
              e.src in S.table.sessions && S.table.sessions[e.src].sfuId == e.sfu
  {
    hide Mesh, LogsOk, SignalingOk, MediaOk, Seated, CallOk;
  }

  /** The mesh looks at a session's call, phase and links. */
  lemma SwapMesh(ss: Sessions, cs: Calls, sid: Sid, s: Session)
    requires Mesh(ss, cs, {}, {}) && sid in ss && s.callKey == ss[sid].callKey && s.tx == ss[sid].tx
    requires s.phase == ss[sid].phase
    ensures Mesh(ss[sid := s], cs, {}, {})
  {
    assert Apart(ss[sid], cs, sid, {}) && Covers(ss[sid], cs, sid, {}) && AtRest(ss[sid], false);
    assert forall p :: Peer(s, cs, sid, p) <==> Peer(ss[sid], cs, sid, p);
    assert forall p :: Queues(s, p) <==> Queues(ss[sid], p);
  }

  /** Draining a session that was just taken off the work list restores the whole invariant. */
  lemma DrainSessionKeeps(S: Srv, sid: Sid)
    requires Standing(S, {}, {}) && TimersBut(S.table.sessions, S.loop.dirty, sid)
    ensures Inv(DrainSession(S, sid)) && DrainSession(S, sid).loop.crashed == S.loop.crashed
  {
    hide Rosters, Mesh, NamesOk, LogsOk, SignalingOk, MediaOk, CloseSession, ForwardAll;
    if sid in S.table.sessions && S.table.sessions[sid].rtc.Some? {
      var poll := S.env.w.poll(S.loop.tick);
      var inbound := S.table.sessions[sid].rtc.value.inbound;
      var S1 := SetSession(Ticked(S), sid, Polled(S.table.sessions[sid], poll));
      PolledKeeps(S, sid, poll);
      ForwardAllKeeps(S1, sid, inbound[..Taken(poll, inbound)]);
      if Closes(poll) {
        DrainedClose(ForwardAll(S1, sid, inbound[..Taken(poll, inbound)]), sid);
      }
    } else if sid in S.table.sessions {
      assert TimersOk(S.table.sessions, S.loop.dirty);
    }
  }

  lemma DrainedClose(S: Srv, sid: Sid)
    requires Standing(S, {}, {}) && TimersBut(S.table.sessions, S.loop.dirty, sid) && sid in S.table.sessions
    ensures Inv(CloseSession(S, sid, None)) && CloseSession(S, sid, None).loop.crashed == S.loop.crashed
  {
    hide Rosters, Mesh, NamesOk, LogsOk, MediaOk, TimersBut, Leave, SendFinal;
    CloseEffect(S, sid, None, {}, {});
    GoneKeeps(S, CloseSession(S, sid, None), sid, {}, {});
  }

  // ---- the work list -----------------------------------------------------------------

  /** Inbound packets not yet handed out. */
  function Waiting(s: Session): nat { if s.rtc.Some? then |s.rtc.value.inbound| else 0 }

  ghost function Backlog(ss: Sessions): nat {
    if ss == map[] then 0 else var t :| t in ss; Waiting(ss[t]) + Backlog(ss - {t})
  }

  lemma {:induction false} BacklogWithout(ss: Sessions, x: Sid)
    requires x in ss
    ensures Backlog(ss) == Waiting(ss[x]) + Backlog(ss - {x})
    decreases |ss|
  {
    var t :| t in ss && Backlog(ss) == Waiting(ss[t]) + Backlog(ss - {t});
    if t != x {
      BacklogWithout(ss - {t}, x);
      BacklogWithout(ss - {x}, t);
      assert ss - {t} - {x} == ss - {x} - {t};
    }
  }

  /** Fewer sessions, none of them with more waiting: no more waiting in all. */
  lemma {:induction false} BacklogShrinks(ss: Sessions, ss': Sessions)
    requires forall t :: t in ss' ==> t in ss && Waiting(ss'[t]) <= Waiting(ss[t])
    ensures Backlog(ss') <= Backlog(ss)
    decreases |ss'|
  {
    if ss' != map[] {
      var x :| x in ss';
      BacklogWithout(ss, x);
      BacklogWithout(ss', x);
      BacklogShrinks(ss - {x}, ss' - {x});
    }
  }

  lemma {:induction false} BacklogStrict(ss: Sessions, ss': Sessions, x: Sid)
    requires forall t :: t in ss' ==> t in ss && Waiting(ss'[t]) <= Waiting(ss[t])
    requires x in ss && Waiting(ss[x]) > 0 && (x in ss' ==> Waiting(ss'[x]) < Waiting(ss[x]))
    ensures Backlog(ss') < Backlog(ss)
  {
    BacklogWithout(ss, x);
    if x in ss' { BacklogWithout(ss', x); }
    BacklogShrinks(ss - {x}, ss' - {x});
    if x !in ss' { assert ss' - {x} == ss'; }
  }

  /** Closing neither adds a session nor fills anybody's inbound queue, and leaves the work list alone. */
  ghost predicate Drained(S: Srv, S': Srv) {
    && S'.loop.dirty == S.loop.dirty
    && forall t :: t in S'.table.sessions ==>
         t in S.table.sessions && Waiting(S'.table.sessions[t]) == Waiting(S.table.sessions[t])
  }

  lemma {:induction false} ForgetAllDrains(S: Srv, rest: seq<Sid>, gone: Sid, sfu: SfuId)
    ensures Drained(S, ForgetAll(S, rest, gone, sfu))
    decreases |rest|
  {
    if rest != [] {
      assert Drained(S, ForgetOne(S, rest[0], gone, sfu)) by { hide WithoutSource; }
      ForgetAllDrains(ForgetOne(S, rest[0], gone, sfu), rest[1..], gone, sfu);
    }
  }

  lemma CloseDrains(S: Srv, sid: Sid, final: Option<ServerFrame>)
    ensures Drained(S, CloseSession(S, sid, final)) && sid !in CloseSession(S, sid, final).table.sessions
  {
    hide ForgetAll, Forget;
    if sid in S.table.sessions {
      var s := S.table.sessions[sid];
      var S1 := SendFinal(RemoveSession(S, sid), sid, final);
      assert Drained(S, S1) && sid !in S1.table.sessions;
      if s.callKey.Some? && s.callKey.value in S1.table.calls {
        var S2 := Unseat(S1, s.callKey.value, sid);
        ForgetAllDrains(S2, S2.table.calls[s.callKey.value].participants, sid, s.sfuId);
      }
    }
  }

  lemma {:induction false} FanOutTable(S: Srv, targets: seq<Sid>, src: Sid, p: Packet)
    ensures FanOut(S, targets, src, p).table == S.table
    decreases |targets|
  {
    if targets != [] { FanOutTable(ForwardTo(S, targets[0], src, p), targets[1..], src, p); }
  }

  lemma {:induction false} ForwardAllTable(S: Srv, src: Sid, ps: seq<Packet>)
    ensures ForwardAll(S, src, ps).table == S.table
    decreases |ps|
  {
    hide FanOut, Without;
    if ps != [] {
      assert ForwardRtp(S, src, ps[0]).table == S.table by {
        var key := if src in S.table.sessions then S.table.sessions[src].callKey else None;
        FanOutTable(S.(past := S.past.(heard := S.past.heard[src := HeardFrom(S, src) + [ps[0]]])),
                    Without(Roster(S, key), src), src, ps[0]);
      }
      ForwardAllTable(ForwardRtp(S, src, ps[0]), src, ps[1..]);
    }
  }

  function Popped(S: Srv): Srv
    requires S.loop.dirty != []
  {
    S.(loop := S.loop.(dirty := S.loop.dirty[1..]))
  }

  /**
   * Draining one session hands out packets or shortens the work list; forwarding puts nothing into anyone's inbound
   * queue.
   */
  lemma DrainProgress(S: Srv)
    requires S.loop.dirty != []
    ensures var S' := DrainSession(Popped(S), S.loop.dirty[0]);
            || Backlog(S'.table.sessions) < Backlog(S.table.sessions)
            || (Backlog(S'.table.sessions) == Backlog(S.table.sessions) && |S'.loop.dirty| < |S.loop.dirty|)
  {
    hide CloseSession, ForwardRtp;
    var sid := S.loop.dirty[0];
    var S0 := Popped(S);
    if sid in S0.table.sessions && S0.table.sessions[sid].rtc.Some? {
      var poll := S0.env.w.poll(S0.loop.tick);
      var inbound := S0.table.sessions[sid].rtc.value.inbound;
      var ps := inbound[..Taken(poll, inbound)];
      var S1 := SetSession(Ticked(S0), sid, Polled(S0.table.sessions[sid], poll));
      var S2 := ForwardAll(S1, sid, ps);
      ForwardAllTable(S1, sid, ps);
      CloseDrains(S2, sid, None);
      var S' := DrainSession(S0, sid);
      assert forall t :: t in S'.table.sessions ==>
               t in S.table.sessions && Waiting(S'.table.sessions[t]) <= Waiting(S.table.sessions[t]);
      if inbound != [] {
        BacklogStrict(S.table.sessions, S'.table.sessions, sid);
      } else {
        BacklogShrinks(S.table.sessions, S'.table.sessions);
      }
    }
  }

  /** The work list taken from the front until nothing is left; each turn lowers the backlog or the list's length. */
  function DrainReady(S: Srv): Srv
    decreases Backlog(S.table.sessions), |S.loop.dirty|
  {
    if S.loop.dirty == [] then S
    else
      DrainProgress(S);
      DrainReady(DrainSession(Popped(S), S.loop.dirty[0]))
  }

  /** Draining always ends, with an empty work list and the invariant. */
  lemma {:induction false} DrainReadyKeeps(S: Srv)
    requires Inv(S)
    ensures var S' := DrainReady(S); Inv(S') && S'.loop.dirty == [] && S'.loop.crashed == S.loop.crashed
    decreases Backlog(S.table.sessions), |S.loop.dirty|
  {
    hide Rosters, Mesh, NamesOk, LogsOk, SignalingOk, MediaOk, DrainSession;
    if S.loop.dirty != [] {
      DrainProgress(S);
      assert forall t :: t in S.loop.dirty <==> t == S.loop.dirty[0] || t in S.loop.dirty[1..];
      DrainSessionKeeps(Popped(S), S.loop.dirty[0]);
      DrainReadyKeeps(DrainSession(Popped(S), S.loop.dirty[0]));
    }
  }
}
