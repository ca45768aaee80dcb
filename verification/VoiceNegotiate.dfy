/** The next re-offer: queued sources become slots, one offer is in flight, every new peer is announced after it. */
module VoiceNegotiate {
  import opened Basics
  import opened VoiceTypes
  import opened VoiceSpec
  import opened VoiceInvariant
  import opened VoiceClose
  import opened VoiceSwap
  import opened VoiceGone
  import opened VoiceSend

  // ---- the new slots -------------------------------------------------------

  /** Queued sources are never stale: the filter in front of every re-offer keeps all of them. */
  lemma {:induction false} FreshKeepsAll(q: seq<Source>, roster: seq<Sid>, slots: map<Sid, TxSlot>)
    requires forall e :: e in q ==> e.src in roster && e.src !in slots
    ensures Fresh(q, roster, slots) == q
  {
    if q != [] {
      assert q == [q[0]] + q[1..] && q[0] in q;
      assert forall e :: e in q[1..] ==> e in q;
      FreshKeepsAll(q[1..], roster, slots);
    }
  }

  ghost predicate Sourced(q: seq<Source>, p: Sid) {
    exists i :: 0 <= i < |q| && q[i].src == p
  }

  lemma {:induction false} AddSlotsEffect(slots: map<Sid, TxSlot>, q: seq<Source>, mid: Mid, ssrc: nat)
    requires Distinct(q)
    ensures var r := AddSlots(slots, q, mid, ssrc);
            && (forall p :: p in r <==> p in slots || Sourced(q, p))
            && (forall p :: p in slots && !Sourced(q, p) ==> r[p] == slots[p])
            && (forall i :: 0 <= i < |q| ==>
                  q[i].src in r && r[q[i].src] == TxSlot(mid + i, Allocated(ssrc + i + 1), false))
    decreases |q|
  {
    if q != [] {
      var slots1 := slots[q[0].src := TxSlot(mid, Allocated(ssrc + 1), false)];
      var rest := q[1..];
      AddSlotsEffect(slots1, rest, mid + 1, ssrc + 1);
      var r := AddSlots(slots, q, mid, ssrc);
      assert forall i :: 0 <= i < |rest| ==> rest[i] == q[i + 1];
      assert !Sourced(rest, q[0].src);
      forall p ensures Sourced(q, p) <==> p == q[0].src || Sourced(rest, p) {
        if Sourced(rest, p) { var i :| 0 <= i < |rest| && rest[i].src == p; assert q[i + 1].src == p; }
        if Sourced(q, p) && p != q[0].src { var i :| 0 <= i < |q| && q[i].src == p; assert rest[i - 1].src == p; }
        if p == q[0].src { assert Sourced(q, p); }
      }
      forall i | 0 <= i < |q|
        ensures q[i].src in r && r[q[i].src] == TxSlot(mid + i, Allocated(ssrc + i + 1), false)
      {
        if i > 0 { assert q[i] == rest[i - 1]; }
      }
    }
  }

  // ---- announcements -------------------------------------------------------

  lemma PushOffers(log: seq<ServerFrame>, f: ServerFrame)
    ensures Offers(log + [f]) == Offers(log) + (if f.Offer? then 1 else 0)
  {
    assert (log + [f])[..|log + [f]| - 1] == log;
  }

  lemma PushAnnounced(log: seq<ServerFrame>, f: ServerFrame, sfu: SfuId)
    ensures Told(log + [f], sfu) <==> Told(log, sfu) || (f.PeerJoined? && f.sfu == sfu)
  {
    if Told(log, sfu) {
      var i :| 0 <= i < |log| && log[i].PeerJoined? && log[i].sfu == sfu;
      assert (log + [f])[i] == log[i];
    }
    if f.PeerJoined? && f.sfu == sfu { assert (log + [f])[|log|] == f; }
  }

  lemma PushOfferedBefore(log: seq<ServerFrame>, f: ServerFrame, n: nat, mid: Mid)
    requires n <= |log| && OfferedBefore(log, n, mid)
    ensures OfferedBefore(log + [f], n, mid) && OfferedBefore(log + [f], n + 1, mid)
  {
    var i :| 0 <= i < n && log[i].Offer? && mid in log[i].mids;
    assert (log + [f])[i] == log[i];
  }

  lemma PushLogOk(log: seq<ServerFrame>, f: ServerFrame)
    requires LogOk(log)
    requires f.PeerJoined? ==> !Told(log, f.sfu) && OfferedBefore(log, |log|, f.mid)
    ensures LogOk(log + [f])
  {
    var log' := log + [f];
    forall i | 0 <= i < |log'| && log'[i].PeerJoined? ensures OfferedBefore(log', i, log'[i].mid) {
      PushOfferedBefore(log, f, i, log'[i].mid);
    }
  }

  /** `e` was offered m-line `mid`, is not announced yet, and whoever bears its name holds a slot at `sid`. */
  ghost predicate Unannounced(ss: Sessions, sid: Sid, log: seq<ServerFrame>, idCounter: nat, e: Source, mid: Mid)
    requires sid in ss
  {
    && !Told(log, e.sfu) && OfferedBefore(log, |log|, mid) && e.sfu <= idCounter
    && forall u :: u in ss && ss[u].callKey.Some? && ss[u].sfuId == e.sfu ==> u in ss[sid].tx.slots
  }

  ghost predicate ToAnnounce(ss: Sessions, sid: Sid, log: seq<ServerFrame>, idCounter: nat, q: seq<Source>, mid: Mid)
    requires sid in ss
  {
    && (forall i :: 0 <= i < |q| ==> Unannounced(ss, sid, log, idCounter, q[i], mid + i))
    && (forall i, j :: 0 <= i < j < |q| ==> q[i].sfu != q[j].sfu)
  }

  lemma AnnounceOneLogs(S: Srv, sid: Sid, f: ServerFrame)
    requires LogsOk(S.past.sent, S.past.accepted, S.loop.nextSid) && sid in S.past.sent && f.PeerJoined?
    requires !Told(S.past.sent[sid], f.sfu) && OfferedBefore(S.past.sent[sid], |S.past.sent[sid]|, f.mid)
    ensures LogsOk(S.past.sent[sid := S.past.sent[sid] + [f]], S.past.accepted, S.loop.nextSid)
  {
    hide LogOk, Told, OfferedBefore;
    PushLogOk(S.past.sent[sid], f);
    PushOffers(S.past.sent[sid], f);
  }

  lemma AnnounceOneSignaling(ss: Sessions, sent: map<Sid, seq<ServerFrame>>, accepted: map<Sid, nat>, idCounter: nat,
                             sid: Sid, f: ServerFrame)
    requires SignalingOk(ss, sent, accepted, idCounter) && sid in ss && sid in sent && f.PeerJoined?
    requires f.sfu <= idCounter
    requires forall u :: u in ss && ss[u].callKey.Some? && ss[u].sfuId == f.sfu ==> u in ss[sid].tx.slots
    ensures SignalingOk(ss, sent[sid := sent[sid] + [f]], accepted, idCounter)
  {
    hide Told;
    PushOffers(sent[sid], f);
    forall u | u in ss && ss[u].callKey.Some? && Told(sent[sid] + [f], ss[u].sfuId) ensures u in ss[sid].tx.slots {
      PushAnnounced(sent[sid], f, ss[u].sfuId);
    }
  }

  lemma AnnounceOneRest(ss: Sessions, sid: Sid, log: seq<ServerFrame>, idCounter: nat, q: seq<Source>, mid: Mid)
    requires sid in ss && q != [] && ToAnnounce(ss, sid, log, idCounter, q, mid)
    ensures ToAnnounce(ss, sid, log + [PeerJoined(q[0].sfu, mid)], idCounter, q[1..], mid + 1)
  {
    hide Told, OfferedBefore;
    var f := PeerJoined(q[0].sfu, mid);
    var rest := q[1..];
    forall i | 0 <= i < |rest| ensures Unannounced(ss, sid, log + [f], idCounter, rest[i], mid + 1 + i) {
      assert rest[i] == q[i + 1] && Unannounced(ss, sid, log, idCounter, q[i + 1], mid + (i + 1));
      PushAnnounced(log, f, q[i + 1].sfu);
      PushOfferedBefore(log, f, |log|, mid + (i + 1));
    }
  }

  lemma {:induction false} AnnounceNobody(S: Srv, sid: Sid, q: seq<Source>, mid: Mid)
    requires sid !in S.table.sessions
    ensures AnnounceAll(S, sid, q, mid) == S
    decreases |q|
  {
    if q != [] { AnnounceNobody(S, sid, q[1..], mid + 1); }
  }

  lemma AnnounceOne(S: Srv, sid: Sid, f: ServerFrame, owed: Debts, loose: set<Sid>)
    requires InvDuring(S, owed, loose) && sid in S.table.sessions && S.env.w.delivers(S.loop.tick)
    requires f.PeerJoined? && f.sfu <= S.loop.idCounter
    requires !Told(S.past.sent[sid], f.sfu) && OfferedBefore(S.past.sent[sid], |S.past.sent[sid]|, f.mid)
    requires var ss := S.table.sessions;
             forall u :: u in ss && ss[u].callKey.Some? && ss[u].sfuId == f.sfu ==>
               u in S.table.sessions[sid].tx.slots
    ensures InvDuring(Send(S, sid, f), owed, loose)
  {
    hide Rosters, Mesh, NamesOk, TimersOk, MediaOk, LogsOk, SignalingOk, Told, OfferedBefore;
    assert sid in S.past.sent by { InvSent(S, owed, loose); }
    AnnounceOneLogs(S, sid, f);
    AnnounceOneSignaling(S.table.sessions, S.past.sent, S.past.accepted, S.loop.idCounter, sid, f);
  }

  lemma InvSent(S: Srv, owed: Debts, loose: set<Sid>)
    requires InvDuring(S, owed, loose)
    ensures S.table.sessions.Keys <= S.past.sent.Keys && S.table.sessions.Keys <= S.past.accepted.Keys
  {
    hide Rosters, Mesh, NamesOk, TimersOk, MediaOk, LogsOk;
  }

  lemma {:induction false} AnnounceAllKeeps(S: Srv, sid: Sid, q: seq<Source>, mid: Mid, owed: Debts, loose: set<Sid>)
    requires InvDuring(S, owed, loose)
    requires sid in S.table.sessions ==>
               sid in S.past.sent && ToAnnounce(S.table.sessions, sid, S.past.sent[sid], S.loop.idCounter, q, mid)
    ensures InvDuring(AnnounceAll(S, sid, q, mid), owed, loose)
    ensures AnnounceAll(S, sid, q, mid).loop.crashed == S.loop.crashed
    decreases |q|
  {
    hide Rosters, Mesh, NamesOk, TimersOk, MediaOk, LogsOk, SignalingOk, CloseSession;
    if sid !in S.table.sessions {
      AnnounceNobody(S, sid, q, mid);
    } else if q != [] {
      var f := PeerJoined(q[0].sfu, mid);
      var S1 := Send(S, sid, f);
      if S.env.w.delivers(S.loop.tick) {
        assert Unannounced(S.table.sessions, sid, S.past.sent[sid], S.loop.idCounter, q[0], mid + 0);
        AnnounceOne(S, sid, f, owed, loose);
        AnnounceOneRest(S.table.sessions, sid, S.past.sent[sid], S.loop.idCounter, q, mid);
      } else {
        Idles(S, S.loop.dirty, S.loop.tick + 1, owed, loose);
        CloseKeeps(TrySend(S, sid, f), sid, None, owed, loose);
      }
      AnnounceAllKeeps(S1, sid, q[1..], mid + 1, owed, loose);
    }
  }

  // ---- the re-offer --------------------------------------------------------

  /** A session ready for its next re-offer, and the state right after the offer was delivered. */
  ghost predicate Ready(S: Srv, sid: Sid, owed: Debts, loose: set<Sid>) {
    && InvDuring(S, owed, loose) && sid in S.table.sessions
    && S.table.sessions[sid].phase.Steady? && !S.table.sessions[sid].tx.offerPending && S.table.sessions[sid].rtc.Some?
  }

  lemma OfferedSlots(s: Session)
    requires s.rtc.Some? && Distinct(s.tx.queued) && forall e :: e in s.tx.queued ==> e.src !in s.tx.slots
    ensures var s' := Offered(s, s.tx.queued);
            && (forall p :: p in s'.tx.slots <==> p in s.tx.slots || Queues(s, p))
            && (forall p :: p in s.tx.slots ==> s'.tx.slots[p] == s.tx.slots[p])
            && (forall p :: p in s'.tx.slots && p !in s.tx.slots ==>
                  exists i :: 0 <= i < |s.tx.queued| && s.tx.queued[i].src == p &&
                              s'.tx.slots[p] == TxSlot(s.rtc.value.nextMid + i, Allocated(s.nextSsrc + i + 1), false))
  {
    hide AddSlots;
    var q := s.tx.queued;
    var s' := Offered(s, q);
    AddSlotsEffect(s.tx.slots, q, s.rtc.value.nextMid, s.nextSsrc);
    forall p ensures Sourced(q, p) <==> Queues(s, p) {
      if Sourced(q, p) { var i :| 0 <= i < |q| && q[i].src == p; assert q[i] in q; }
    }
  }

  lemma OfferedMesh(ss: Sessions, cs: Calls, sid: Sid, owed: Debts, loose: set<Sid>)
    requires Mesh(ss, cs, owed, loose) && sid in ss && ss[sid].rtc.Some?
    ensures Mesh(ss[sid := Offered(ss[sid], ss[sid].tx.queued)], cs, owed, loose - {sid})
  {
    hide AddSlots;
    var s := ss[sid];
    var s' := Offered(s, s.tx.queued);
    OfferedSlots(s);
    assert forall p :: Peer(s', cs, sid, p) <==> Peer(s, cs, sid, p);
  }

  lemma OfferedMedia(ss: Sessions, streams: map<StreamKey, Stream>, heard: map<Sid, seq<Packet>>,
                     room: map<Sid, CallKey>, nextSid: Sid, sid: Sid)
    requires MediaOk(ss, streams, heard, room, nextSid) && sid in ss && ss[sid].rtc.Some?
    requires Distinct(ss[sid].tx.queued) && forall e :: e in ss[sid].tx.queued ==> e.src !in ss[sid].tx.slots
    ensures MediaOk(ss[sid := Offered(ss[sid], ss[sid].tx.queued)], streams, heard, room, nextSid)
  {
    hide AddSlots, StreamPast;
    var s := ss[sid];
    var s' := Offered(s, s.tx.queued);
    var ss' := ss[sid := s'];
    OfferedSlots(s);
    forall k | k in streams ensures StreamLive(k, streams[k], ss', heard) {
      assert StreamLive(k, streams[k], ss, heard);
    }
    forall src | src in s'.tx.slots ensures SlotOk(s', sid, src, streams) {
      if src in s.tx.slots { assert SlotOk(s, sid, src, streams); }
    }
    assert SlotsDistinct(s') by { assert SlotsDistinct(s); OfferedDistinct(ss, streams, heard, room, nextSid, sid); }
  }

  lemma OfferedDistinct(ss: Sessions, streams: map<StreamKey, Stream>, heard: map<Sid, seq<Packet>>,
                        room: map<Sid, CallKey>, nextSid: Sid, sid: Sid)
    requires MediaOk(ss, streams, heard, room, nextSid) && sid in ss && ss[sid].rtc.Some?
    requires Distinct(ss[sid].tx.queued) && forall e :: e in ss[sid].tx.queued ==> e.src !in ss[sid].tx.slots
    ensures SlotsDistinct(Offered(ss[sid], ss[sid].tx.queued))
  {
    hide AddSlots, StreamPast, StreamLive;
    var s := ss[sid];
    var s' := Offered(s, s.tx.queued);
    OfferedSlots(s);
    forall a, b | a in s'.tx.slots && b in s'.tx.slots && a != b && !s'.tx.slots[a].declared && !s'.tx.slots[b].declared
      ensures s'.tx.slots[a].mid != s'.tx.slots[b].mid && s'.tx.slots[a].ssrc != s'.tx.slots[b].ssrc
    {
      if a in s.tx.slots { assert SlotOk(s, sid, a, streams); }
      if b in s.tx.slots { assert SlotOk(s, sid, b, streams); }
    }
  }

  lemma OfferedSignaling(ss: Sessions, sent: map<Sid, seq<ServerFrame>>, accepted: map<Sid, nat>, idCounter: nat,
                         sid: Sid, f: ServerFrame)
    requires SignalingOk(ss, sent, accepted, idCounter) && sid in ss && f.Offer? && !ss[sid].tx.offerPending
    requires ss[sid].rtc.Some?
    requires Distinct(ss[sid].tx.queued) && forall e :: e in ss[sid].tx.queued ==> e.src !in ss[sid].tx.slots
    ensures SignalingOk(ss[sid := Offered(ss[sid], ss[sid].tx.queued)], sent[sid := sent[sid] + [f]], accepted,
                        idCounter)
  {
    hide AddSlots, Told, ToldHaveSlots, Distinct;
    var s' := Offered(ss[sid], ss[sid].tx.queued);
    var ss' := ss[sid := s'];
    var sent' := sent[sid := sent[sid] + [f]];
    PushOffers(sent[sid], f);
    forall t | t in ss' ensures ToldHaveSlots(ss', t, sent'[t]) { OfferedTold(ss, sent, sid, f, t); }
  }

  lemma OfferedTold(ss: Sessions, sent: map<Sid, seq<ServerFrame>>, sid: Sid, f: ServerFrame, t: Sid)
    requires sid in ss && sid in sent && t in ss && t in sent && f.Offer? && ss[sid].rtc.Some?
    requires ToldHaveSlots(ss, t, sent[t])
    requires Distinct(ss[sid].tx.queued) && forall e :: e in ss[sid].tx.queued ==> e.src !in ss[sid].tx.slots
    ensures ToldHaveSlots(ss[sid := Offered(ss[sid], ss[sid].tx.queued)], t, sent[sid := sent[sid] + [f]][t])
  {
    hide AddSlots, Told, Distinct;
    var ss' := ss[sid := Offered(ss[sid], ss[sid].tx.queued)];
    OfferedSlots(ss[sid]);
    forall u | u in ss' && ss'[u].callKey.Some? && Told(sent[sid := sent[sid] + [f]][t], ss'[u].sfuId)
      ensures u in ss'[t].tx.slots
    {
      PushAnnounced(sent[sid], f, ss'[u].sfuId);
    }
  }

  lemma OfferedLogs(sent: map<Sid, seq<ServerFrame>>, accepted: map<Sid, nat>, nextSid: Sid, sid: Sid, f: ServerFrame)
    requires LogsOk(sent, accepted, nextSid) && sid in sent && sid in accepted && f.Offer?
    requires Offers(sent[sid]) == accepted[sid]
    ensures LogsOk(sent[sid := sent[sid] + [f]], accepted, nextSid)
  {
    hide LogOk;
    PushOffers(sent[sid], f);
    PushLogOk(sent[sid], f);
  }

  /** What the names of a queue are good for. */
  ghost predicate QueueNames(ss: Sessions, sid: Sid, idCounter: nat)
    requires sid in ss
  {
    && NamesOk(ss, idCounter) && Distinct(ss[sid].tx.queued)
    && forall e :: e in ss[sid].tx.queued ==> e.src in ss && ss[e.src].callKey.Some? && e.src !in ss[sid].tx.slots
  }

  lemma OfferedUnannounced(ss: Sessions, sid: Sid, log: seq<ServerFrame>, idCounter: nat, f: ServerFrame, e: Source,
                           mid: Mid)
    requires sid in ss && ss[sid].rtc.Some? && QueueNames(ss, sid, idCounter) && ToldHaveSlots(ss, sid, log)
    requires e in ss[sid].tx.queued && f.Offer? && mid in f.mids
    ensures Unannounced(ss[sid := Offered(ss[sid], ss[sid].tx.queued)], sid, log + [f], idCounter, e, mid)
  {
    hide AddSlots, Told;
    OfferedSlots(ss[sid]);
    PushAnnounced(log, f, e.sfu);
    assert (log + [f])[|log|] == f;
    assert Queues(ss[sid], e.src);
  }

  /** Nobody in the queue was announced before, and the offer now carries an m-line for each. */
  lemma OfferedToAnnounce(ss: Sessions, sid: Sid, log: seq<ServerFrame>, idCounter: nat, mid: Mid)
    requires sid in ss && ss[sid].rtc.Some? && QueueNames(ss, sid, idCounter) && ToldHaveSlots(ss, sid, log)
    ensures var q := ss[sid].tx.queued;
            ToAnnounce(ss[sid := Offered(ss[sid], q)], sid, log + [Offer(Mids(mid, |q|))], idCounter, q, mid)
  {
    hide Offered, Unannounced;
    var q := ss[sid].tx.queued;
    var f := Offer(Mids(mid, |q|));
    var ss' := ss[sid := Offered(ss[sid], q)];
    forall i | 0 <= i < |q| ensures Unannounced(ss', sid, log + [f], idCounter, q[i], mid + i) {
      assert f.mids[i] == mid + i;
      OfferedUnannounced(ss, sid, log, idCounter, f, q[i], mid + i);
    }
    forall i, j | 0 <= i < j < |q| ensures q[i].sfu != q[j].sfu {
      assert q[i] in q && q[j] in q && q[i].src != q[j].src;
    }
  }

  /** In a call, a queue names peers that are here, by their right names. */
  lemma QueuesAreNamed(S: Srv, sid: Sid, owed: Debts, loose: set<Sid>)
    requires InvDuring(S, owed, loose) && sid in S.table.sessions
    ensures QueueNames(S.table.sessions, sid, S.loop.idCounter)
  {
    hide TimersOk, LogsOk, SignalingOk, MediaOk, Covers, AtRest, PhaseOk, Seated, NamesOk;
    var s := S.table.sessions[sid];
    assert Apart(s, S.table.calls, sid, owed);
    forall e | e in s.tx.queued ensures e.src in S.table.sessions && S.table.sessions[e.src].callKey.Some? {
      assert CallOk(S.table.sessions, s.callKey.value, S.table.calls[s.callKey.value]);
    }
  }

  /** The re-offer was delivered. */
  lemma OfferedKeeps(S: Srv, sid: Sid, owed: Debts, loose: set<Sid>)
    requires Ready(S, sid, owed, loose) && S.env.w.delivers(S.loop.tick)
    ensures var s := S.table.sessions[sid];
            var f := Offer(Mids(s.rtc.value.nextMid, |s.tx.queued|));
            var S' := Send(MarkDirty(SetSession(S, sid, Offered(s, s.tx.queued)), sid), sid, f);
            && InvDuring(S', owed, loose - {sid}) && S'.loop.crashed == S.loop.crashed
            && sid in S'.table.sessions && sid in S'.past.sent
            && ToAnnounce(S'.table.sessions, sid, S'.past.sent[sid], S'.loop.idCounter, s.tx.queued,
                          s.rtc.value.nextMid)
  {
    hide AddSlots, Offered, Rosters, Mesh, NamesOk, TimersOk, LogsOk, MediaOk, SignalingOk;
    var s := S.table.sessions[sid];
    var ss, q := S.table.sessions, s.tx.queued;
    var f := Offer(Mids(s.rtc.value.nextMid, |q|));
    InvSent(S, owed, loose);
    QueuesAreNamed(S, sid, owed, loose);
    SeatedAt(S, sid, owed, loose);
    var s' := Offered(s, q);
    OfferedSame(s);
    SwapRosters(ss, S.table.calls, S.past.room, S.loop.nextSid, sid, s');
    OfferedMesh(ss, S.table.calls, sid, owed, loose);
    SwapNames(ss, S.loop.idCounter, sid, s');
    assert TimersOk(ss[sid := s'], S.loop.dirty + [sid]) by { OfferedTimers(ss, S.loop.dirty, sid, s'); }
    OfferedMedia(ss, S.past.streams, S.past.heard, S.past.room, S.loop.nextSid, sid);
    OfferedSignaling(ss, S.past.sent, S.past.accepted, S.loop.idCounter, sid, f);
    assert Offers(S.past.sent[sid]) == S.past.accepted[sid] && ToldHaveSlots(ss, sid, S.past.sent[sid]) by {
      SignalingAt(S, sid, owed, loose);
    }
    OfferedLogs(S.past.sent, S.past.accepted, S.loop.nextSid, sid, f);
    OfferedToAnnounce(ss, sid, S.past.sent[sid], S.loop.idCounter, s.rtc.value.nextMid);
  }

  lemma SeatedAt(S: Srv, sid: Sid, owed: Debts, loose: set<Sid>)
    requires InvDuring(S, owed, loose) && sid in S.table.sessions
    ensures Seated(S.table.sessions[sid], sid, S.table.calls, S.past.room) && PhaseOk(S.table.sessions[sid])
    ensures sid < S.loop.nextSid
    ensures var k := S.table.sessions[sid].callKey; k.Some? ==>
              CallOk(S.table.sessions, k.value, S.table.calls[k.value])
  {
    hide NamesOk, LogsOk, SignalingOk, MediaOk, Mesh, TimersOk;
  }

  lemma SignalingAt(S: Srv, sid: Sid, owed: Debts, loose: set<Sid>)
    requires InvDuring(S, owed, loose) && sid in S.table.sessions
    ensures sid in S.past.sent && sid in S.past.accepted
    ensures Alternates(S.past.sent[sid], S.past.accepted[sid], S.table.sessions[sid].tx.offerPending)
    ensures ToldHaveSlots(S.table.sessions, sid, S.past.sent[sid])
  {
    hide Rosters, Mesh, NamesOk, TimersOk, LogsOk, MediaOk;
  }

  /** Whatever the channel does, a negotiation attempt leaves the session's queue at rest or an offer in flight. */
  lemma MaybeNegotiateKeeps(S: Srv, sid: Sid, owed: Debts, loose: set<Sid>)
    requires InvDuring(S, owed, loose)
    ensures InvDuring(MaybeNegotiate(S, sid), owed, loose - {sid})
    ensures MaybeNegotiate(S, sid).loop.crashed == S.loop.crashed
  {
    hide AddSlots, Offered, Rosters, Mesh, NamesOk, TimersOk, LogsOk, MediaOk, SignalingOk, AnnounceAll, Send,
      CloseSession, Fresh;
    if sid !in S.table.sessions {
      Settles(S, sid, owed, loose);
    } else {
      var s := S.table.sessions[sid];
      NegotiableAt(S, sid, owed, loose);
      if !s.phase.Steady? || s.tx.offerPending || s.tx.queued == [] {
        Settles(S, sid, owed, loose);
      } else {
        var q, mid := s.tx.queued, s.rtc.value.nextMid;
        var f := Offer(Mids(mid, |q|));
        var S2 := Send(MarkDirty(SetSession(S, sid, Offered(s, q)), sid), sid, f);
        if S.env.w.delivers(S.loop.tick) {
          OfferedKeeps(S, sid, owed, loose);
        } else {
          OfferedSame(s);
          RefusedKeeps(S, sid, Offered(s, q), f, owed, loose);
          Settles(S2, sid, owed, loose);
        }
        AnnounceAllKeeps(S2, sid, q, mid, owed, loose - {sid});
      }
    }
  }

  lemma OfferedSame(s: Session)
    requires s.rtc.Some?
    ensures var s' := Offered(s, s.tx.queued);
            && SameSeat(s, s')
            && s'.tx.queued == []
            && (s.phase.Steady? && PhaseOk(s) ==> PhaseOk(s'))
  {
  }

  lemma OfferedTimers(ss: Sessions, dirty: seq<Sid>, sid: Sid, s: Session)
    requires TimersOk(ss, dirty)
    ensures TimersOk(ss[sid := s], dirty + [sid])
  {
  }

  lemma NegotiableAt(S: Srv, sid: Sid, owed: Debts, loose: set<Sid>)
    requires InvDuring(S, owed, loose) && sid in S.table.sessions
    ensures var s := S.table.sessions[sid];
            && (s.phase.Steady? ==> s.rtc.Some?)
            && Fresh(s.tx.queued, Roster(S, s.callKey), s.tx.slots) == s.tx.queued
            && (!s.phase.Steady? || s.tx.offerPending || s.tx.queued == [] ==> AtRest(s, false))
  {
    hide Fresh, NamesOk, TimersOk, LogsOk, MediaOk, SignalingOk, Covers, CallOk;
    var s := S.table.sessions[sid];
    assert Apart(s, S.table.calls, sid, owed) && AtRest(s, sid in loose) && PhaseOk(s);
    FreshKeepsAll(s.tx.queued, Roster(S, s.callKey), s.tx.slots);
  }
}
