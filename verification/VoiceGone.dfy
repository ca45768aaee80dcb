/** Every part of the invariant survives a session's departure. */
module VoiceGone {
  import opened Basics
  import opened VoiceTypes
  import opened VoiceSpec
  import opened VoiceInvariant
  import opened VoiceClose

  lemma {:induction false} QuietOffers(a: seq<ServerFrame>, b: seq<ServerFrame>)
    requires QuietSuffix(a, b)
    ensures Offers(b) == Offers(a)
    decreases |b|
  {
    if |b| > |a| {
      assert QuietSuffix(a, b[..|b| - 1]);
      QuietOffers(a, b[..|b| - 1]);
    } else {
      assert a == b;
    }
  }

  lemma QuietAnnounced(a: seq<ServerFrame>, b: seq<ServerFrame>, sfu: SfuId)
    requires QuietSuffix(a, b)
    ensures Told(b, sfu) ==> Told(a, sfu)
  {
  }

  lemma QuietLogOk(a: seq<ServerFrame>, b: seq<ServerFrame>)
    requires QuietSuffix(a, b) && LogOk(a)
    ensures LogOk(b)
  {
    forall i | 0 <= i < |b| && b[i].PeerJoined? ensures OfferedBefore(b, i, b[i].mid) {
      assert OfferedBefore(a, i, a[i].mid);
      var j :| 0 <= j < i && a[j].Offer? && a[i].mid in a[j].mids;
      assert b[j] == a[j];
    }
  }

  lemma GoneCall(S: Srv, S': Srv, gone: Sid, k: CallKey)
    requires Gone(S, S', gone) && k in S.table.calls && CallOk(S.table.sessions, k, S.table.calls[k])
    ensures CallOk(S'.table.sessions, k, S'.table.calls[k])
  {
    hide WithoutSource, QuietlyExtends;
  }

  lemma GoneSeated(S: Srv, S': Srv, gone: Sid, t: Sid)
    requires Gone(S, S', gone) && t in S'.table.sessions
    requires Seated(S.table.sessions[t], t, S.table.calls, S.past.room) && PhaseOk(S.table.sessions[t])
    ensures Seated(S'.table.sessions[t], t, S'.table.calls, S'.past.room) && PhaseOk(S'.table.sessions[t])
  {
    hide WithoutSource, QuietlyExtends;
    assert S.table.sessions[t].tx.slots == map[] ==> S'.table.sessions[t].tx.slots == map[];
  }

  lemma GoneRosters(S: Srv, S': Srv, gone: Sid)
    requires Rosters(S.table.sessions, S.table.calls, S.past.room, S.loop.nextSid) && Gone(S, S', gone)
    ensures Rosters(S'.table.sessions, S'.table.calls, S'.past.room, S'.loop.nextSid)
  {
    hide Forget, QuietlyExtends, CallOk, Seated, PhaseOk;
    forall k | k in S'.table.calls ensures CallOk(S'.table.sessions, k, S'.table.calls[k]) { GoneCall(S, S', gone, k); }
    forall t | t in S'.table.sessions
      ensures Seated(S'.table.sessions[t], t, S'.table.calls, S'.past.room) && PhaseOk(S'.table.sessions[t])
    {
      GoneSeated(S, S', gone, t);
    }
  }

  lemma GonePeers(s: Session, cs: Calls, cs': Calls, t: Sid, p: Sid, gone: Sid)
    requires cs'.Keys == cs.Keys
    requires forall k :: k in cs ==> cs'[k].participants == Without(cs[k].participants, gone)
    ensures Peer(Forget(s, gone), cs', t, p) <==> Peer(s, cs, t, p) && p != gone
  {
  }

  lemma GoneMeshAt(s: Session, cs: Calls, cs': Calls, t: Sid, gone: Sid, owed: Debts, loose: bool)
    requires Apart(s, cs, t, owed) && Covers(s, cs, t, owed) && AtRest(s, loose)
    requires cs'.Keys == cs.Keys
    requires forall k :: k in cs ==> cs'[k].participants == Without(cs[k].participants, gone)
    ensures Apart(Forget(s, gone), cs', t, owed) && Covers(Forget(s, gone), cs', t, owed)
    ensures AtRest(Forget(s, gone), loose)
  {
    hide WithoutSource, Without;
    var s' := Forget(s, gone);
    forall p ensures Peer(s', cs', t, p) <==> Peer(s, cs, t, p) && p != gone { GonePeers(s, cs, cs', t, p, gone); }
    forall p ensures Queues(s', p) <==> Queues(s, p) && p != gone {
      if Queues(s, p) && p != gone {
        var e :| e in s.tx.queued && e.src == p;
        assert e in s'.tx.queued;
      }
    }
  }

  lemma GoneMesh(S: Srv, S': Srv, gone: Sid, owed: Debts, loose: set<Sid>)
    requires Mesh(S.table.sessions, S.table.calls, owed, loose) && Gone(S, S', gone)
    ensures Mesh(S'.table.sessions, S'.table.calls, owed, loose)
  {
    forall t | t in S'.table.sessions
      ensures Apart(S'.table.sessions[t], S'.table.calls, t, owed)
      ensures Covers(S'.table.sessions[t], S'.table.calls, t, owed)
      ensures AtRest(S'.table.sessions[t], t in loose)
    {
      GoneMeshAt(S.table.sessions[t], S.table.calls, S'.table.calls, t, gone, owed, t in loose);
    }
  }

  lemma GoneNames(S: Srv, S': Srv, gone: Sid)
    requires NamesOk(S.table.sessions, S.loop.idCounter) && Gone(S, S', gone)
    ensures NamesOk(S'.table.sessions, S'.loop.idCounter)
  {
    hide WithoutSource, QuietlyExtends;
    forall t, e | t in S'.table.sessions && e in S'.table.sessions[t].tx.queued
      ensures e.src in S'.table.sessions && S'.table.sessions[e.src].sfuId == e.sfu
    {
      assert e in S.table.sessions[t].tx.queued && e.src != gone;
    }
    assert forall t :: t in S'.table.sessions ==> S'.table.sessions[t].sfuId == S.table.sessions[t].sfuId;
    assert forall t :: t in S'.table.sessions ==> S'.table.sessions[t].callKey == S.table.sessions[t].callKey;
  }

  lemma GoneTimers(S: Srv, S': Srv, gone: Sid)
    requires TimersBut(S.table.sessions, S.loop.dirty, gone) && Gone(S, S', gone)
    ensures TimersOk(S'.table.sessions, S'.loop.dirty)
  {
    hide WithoutSource, QuietlyExtends, Without;
  }

  lemma QuietLogs(sent: map<Sid, seq<ServerFrame>>, sent': map<Sid, seq<ServerFrame>>, accepted: map<Sid, nat>,
                  nextSid: Sid)
    requires QuietlyExtends(sent, sent') && LogsOk(sent, accepted, nextSid)
    ensures LogsOk(sent', accepted, nextSid)
  {
    hide LogOk, QuietSuffix;
    forall t | t in sent'
      ensures LogOk(sent'[t]) && accepted[t] <= Offers(sent'[t]) <= accepted[t] + 1
    {
      QuietLogOk(sent[t], sent'[t]);
      QuietOffers(sent[t], sent'[t]);
    }
  }

  lemma QuietSignaling(ss: Sessions, sent: map<Sid, seq<ServerFrame>>, sent': map<Sid, seq<ServerFrame>>,
                       accepted: map<Sid, nat>, idCounter: nat)
    requires QuietlyExtends(sent, sent') && SignalingOk(ss, sent, accepted, idCounter)
    ensures SignalingOk(ss, sent', accepted, idCounter)
  {
    hide Told;
    forall t | t in ss
      ensures Alternates(sent'[t], accepted[t], ss[t].tx.offerPending) && ToldHaveSlots(ss, t, sent'[t])
    {
      QuietOffers(sent[t], sent'[t]);
      forall q | q in ss && ss[q].callKey.Some? && Told(sent'[t], ss[q].sfuId) ensures q in ss[t].tx.slots {
        QuietAnnounced(sent[t], sent'[t], ss[q].sfuId);
      }
    }
    forall t, i | t in sent' && 0 <= i < |sent'[t]| && sent'[t][i].PeerJoined? ensures sent'[t][i].sfu <= idCounter {
      assert sent[t][i] == sent'[t][i];
    }
  }

  lemma GoneLogs(S: Srv, S': Srv, gone: Sid)
    requires LogsOk(S.past.sent, S.past.accepted, S.loop.nextSid) && Gone(S, S', gone)
    ensures LogsOk(S'.past.sent, S'.past.accepted, S'.loop.nextSid)
  {
    hide LogsOk, QuietlyExtends, Forget;
    QuietLogs(S.past.sent, S'.past.sent, S.past.accepted, S.loop.nextSid);
  }

  lemma GoneSignaling(S: Srv, S': Srv, gone: Sid)
    requires SignalingOk(S.table.sessions, S.past.sent, S.past.accepted, S.loop.idCounter) && Gone(S, S', gone)
    ensures SignalingOk(S'.table.sessions, S'.past.sent, S'.past.accepted, S'.loop.idCounter)
  {
    hide WithoutSource, Told, QuietlyExtends;
    QuietSignaling(S.table.sessions, S.past.sent, S'.past.sent, S.past.accepted, S.loop.idCounter);
  }

  lemma GoneStreamLive(S: Srv, S': Srv, gone: Sid, k: StreamKey)
    requires Gone(S, S', gone) && k in S.past.streams
    requires StreamLive(k, S.past.streams[k], S.table.sessions, S.past.heard)
    ensures StreamLive(k, S'.past.streams[k], S'.table.sessions, S'.past.heard)
  {
    hide WithoutSource, QuietlyExtends;
  }

  lemma GoneMedia(S: Srv, S': Srv, gone: Sid)
    requires MediaOk(S.table.sessions, S.past.streams, S.past.heard, S.past.room, S.loop.nextSid) && Gone(S, S', gone)
    ensures MediaOk(S'.table.sessions, S'.past.streams, S'.past.heard, S'.past.room, S'.loop.nextSid)
  {
    hide WithoutSource, QuietlyExtends, StreamLive, StreamPast;
    forall k | k in S'.past.streams ensures StreamLive(k, S'.past.streams[k], S'.table.sessions, S'.past.heard) {
      GoneStreamLive(S, S', gone, k);
    }
    forall t, src | t in S'.table.sessions && src in S'.table.sessions[t].tx.slots
      ensures S'.table.sessions[t].rtc.Some? && SlotOk(S'.table.sessions[t], t, src, S'.past.streams)
    {
      assert SlotOk(S.table.sessions[t], t, src, S.past.streams);
    }
    forall t | t in S'.table.sessions ensures SlotsDistinct(S'.table.sessions[t]) {
      assert SlotsDistinct(S.table.sessions[t]);
    }
  }

  lemma GoneKeeps(S: Srv, S': Srv, gone: Sid, owed: Debts, loose: set<Sid>)
    requires Standing(S, owed, loose) && TimersBut(S.table.sessions, S.loop.dirty, gone) && Gone(S, S', gone)
    ensures InvDuring(S', owed, loose)
  {
    hide Gone, Rosters, Mesh, NamesOk, TimersOk, TimersBut, LogsOk, SignalingOk, MediaOk;
    GoneRosters(S, S', gone);
    GoneMesh(S, S', gone, owed, loose);
    GoneNames(S, S', gone);
    GoneTimers(S, S', gone);
    GoneLogs(S, S', gone);
    GoneSignaling(S, S', gone);
    GoneMedia(S, S', gone);
  }

  /** Closing a session, whoever asks and in whatever handler, keeps the invariant. */
  lemma CloseKeeps(S: Srv, sid: Sid, final: Option<ServerFrame>, owed: Debts, loose: set<Sid>)
    requires InvDuring(S, owed, loose) && (final.Some? ==> Quiet(final.value))
    ensures var S' := CloseSession(S, sid, final);
            InvDuring(S', owed, loose) && sid !in S'.table.sessions && S'.loop.crashed == S.loop.crashed
  {
    hide Rosters, Mesh, NamesOk, LogsOk, MediaOk, Leave, SendFinal;
    if sid in S.table.sessions {
      CloseEffect(S, sid, final, owed, loose);
      GoneKeeps(S, CloseSession(S, sid, final), sid, owed, loose);
    }
  }
}
