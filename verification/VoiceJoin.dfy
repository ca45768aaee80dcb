/** Joining a call keeps the invariant, unless the join's acknowledgement cannot be delivered. */
module VoiceJoin {
  import opened Basics
  import opened VoiceTypes
  import opened VoiceSpec
  import opened VoiceInvariant
  import opened VoiceClose
  import opened VoiceSwap
  import opened VoiceGone
  import opened VoiceSend
  import opened VoiceNegotiate

  // ---- who is still here ---------------------------------------------------

  /** From `S` to `S'` at most `who` has left; everyone else kept call, name and seat. */
  ghost predicate OnlyLoses(S: Srv, S': Srv, who: Sid) {
    && (forall t :: t in S'.table.sessions ==>
          && t in S.table.sessions
          && S'.table.sessions[t].callKey == S.table.sessions[t].callKey
          && S'.table.sessions[t].sfuId == S.table.sessions[t].sfuId)
    && (forall t :: t in S.table.sessions && t != who ==> t in S'.table.sessions)
    && S'.loop.idCounter == S.loop.idCounter && S'.loop.nextSid == S.loop.nextSid
    && S'.env == S.env && S'.registry == S.registry
    && S'.table.calls.Keys == S.table.calls.Keys
    && (forall k :: k in S.table.calls ==>
          && S'.table.calls[k].cap == S.table.calls[k].cap
          && (S'.table.calls[k].participants == S.table.calls[k].participants
              || S'.table.calls[k].participants == Without(S.table.calls[k].participants, who)))
  }

  lemma OnlyLosesTwice(S: Srv, S1: Srv, S2: Srv, who: Sid)
    requires OnlyLoses(S, S1, who) && OnlyLoses(S1, S2, who)
    ensures OnlyLoses(S, S2, who)
  {
    forall k | k in S.table.calls
      ensures S2.table.calls[k].participants == S.table.calls[k].participants
              || S2.table.calls[k].participants == Without(S.table.calls[k].participants, who)
    {
      assert Without(Without(S.table.calls[k].participants, who), who) == Without(S.table.calls[k].participants, who);
    }
  }

  lemma CloseOnlyLoses(S: Srv, sid: Sid, final: Option<ServerFrame>, owed: Debts, loose: set<Sid>)
    requires InvDuring(S, owed, loose) && (final.Some? ==> Quiet(final.value))
    ensures OnlyLoses(S, CloseSession(S, sid, final), sid)
  {
    hide NamesOk, TimersOk, LogsOk, MediaOk, SignalingOk, Leave, SendFinal, Rosters, Mesh;
    if sid in S.table.sessions {
      InvSent(S, owed, loose);
      CloseEffect(S, sid, final, owed, loose);
    }
  }

  lemma SendOnlyLoses(S: Srv, sid: Sid, frame: ServerFrame, owed: Debts, loose: set<Sid>)
    requires InvDuring(S, owed, loose)
    ensures OnlyLoses(S, Send(S, sid, frame), sid)
  {
    hide NamesOk, TimersOk, LogsOk, MediaOk, SignalingOk, Rosters, Mesh, CloseSession;
    if sid in S.table.sessions && !S.env.w.delivers(S.loop.tick) {
      Idles(S, S.loop.dirty, S.loop.tick + 1, owed, loose);
      CloseOnlyLoses(TrySend(S, sid, frame), sid, None, owed, loose);
    }
  }

  lemma {:induction false} AnnounceOnlyLoses(S: Srv, sid: Sid, q: seq<Source>, mid: Mid, owed: Debts, loose: set<Sid>)
    requires InvDuring(S, owed, loose)
    requires sid in S.table.sessions ==>
               sid in S.past.sent && ToAnnounce(S.table.sessions, sid, S.past.sent[sid], S.loop.idCounter, q, mid)
    ensures OnlyLoses(S, AnnounceAll(S, sid, q, mid), sid)
    decreases |q|
  {
    hide Rosters, Mesh, NamesOk, TimersOk, MediaOk, LogsOk, SignalingOk, CloseSession, OnlyLoses;
    if sid !in S.table.sessions {
      AnnounceNobody(S, sid, q, mid);
      LosesNobody(S, sid);
    } else if q == [] {
      LosesNobody(S, sid);
    } else {
      var f := PeerJoined(q[0].sfu, mid);
      var S1 := Send(S, sid, f);
      SendOnlyLoses(S, sid, f, owed, loose);
      if S.env.w.delivers(S.loop.tick) {
        assert Unannounced(S.table.sessions, sid, S.past.sent[sid], S.loop.idCounter, q[0], mid + 0);
        AnnounceOne(S, sid, f, owed, loose);
        AnnounceOneRest(S.table.sessions, sid, S.past.sent[sid], S.loop.idCounter, q, mid);
      } else {
        Idles(S, S.loop.dirty, S.loop.tick + 1, owed, loose);
        CloseKeeps(TrySend(S, sid, f), sid, None, owed, loose);
      }
      AnnounceOnlyLoses(S1, sid, q[1..], mid + 1, owed, loose);
      OnlyLosesTwice(S, S1, AnnounceAll(S, sid, q, mid), sid);
    }
  }

  lemma LosesNobody(S: Srv, who: Sid)
    ensures OnlyLoses(S, S, who)
  {
  }

  lemma OfferOnlyLoses(S: Srv, sid: Sid, s: Session, f: ServerFrame, owed: Debts, loose: set<Sid>)
    requires InvDuring(S, owed, loose) && sid in S.table.sessions
    requires s.callKey == S.table.sessions[sid].callKey && s.sfuId == S.table.sessions[sid].sfuId
    ensures OnlyLoses(S, Send(MarkDirty(SetSession(S, sid, s), sid), sid, f), sid)
  {
    hide Rosters, Mesh, NamesOk, TimersOk, LogsOk, MediaOk, SignalingOk, CloseSession;
    if !S.env.w.delivers(S.loop.tick) {
      var S1 := S.(loop := S.loop.(dirty := S.loop.dirty + [sid], tick := S.loop.tick + 1));
      Idles(S, S1.loop.dirty, S1.loop.tick, owed, loose);
      assert Send(MarkDirty(SetSession(S, sid, s), sid), sid, f) == CloseSession(SetSession(S1, sid, s), sid, None);
      CloseSame(S1, sid, s, None);
      CloseOnlyLoses(S1, sid, None, owed, loose);
    }
  }

  lemma MaybeNegotiateOnlyLoses(S: Srv, sid: Sid, owed: Debts, loose: set<Sid>)
    requires InvDuring(S, owed, loose)
    ensures OnlyLoses(S, MaybeNegotiate(S, sid), sid)
  {
    hide AddSlots, Offered, Rosters, Mesh, NamesOk, TimersOk, LogsOk, MediaOk, SignalingOk, AnnounceAll, Send,
      CloseSession, Fresh, OnlyLoses;
    LosesNobody(S, sid);
    if sid in S.table.sessions {
      var s := S.table.sessions[sid];
      NegotiableAt(S, sid, owed, loose);
      if s.phase.Steady? && !s.tx.offerPending && s.tx.queued != [] {
        var q, mid := s.tx.queued, s.rtc.value.nextMid;
        var f := Offer(Mids(mid, |q|));
        var S2 := Send(MarkDirty(SetSession(S, sid, Offered(s, q)), sid), sid, f);
        OfferedSame(s);
        OfferOnlyLoses(S, sid, Offered(s, q), f, owed, loose);
        if S.env.w.delivers(S.loop.tick) {
          OfferedKeeps(S, sid, owed, loose);
        } else {
          RefusedKeeps(S, sid, Offered(s, q), f, owed, loose);
          Settles(S2, sid, owed, loose);
        }
        AnnounceOnlyLoses(S2, sid, q, mid, owed, loose - {sid});
        OnlyLosesTwice(S, S2, MaybeNegotiate(S, sid), sid);
      }
    }
  }

  // ---- the new call and the new seat ------------------------------------------

  lemma NewCallKeeps(S: Srv, key: CallKey)
    requires Inv(S) && key in S.registry.slots && key !in S.table.calls
    ensures Inv(NewCall(S, key))
  {
    hide NamesOk, TimersOk, LogsOk, MediaOk, SignalingOk, Covers, AtRest, Apart, PhaseOk;
    var cs, cs', ss := S.table.calls, NewCall(S, key).table.calls, S.table.sessions;
    forall k | k in cs' ensures CallOk(ss, k, cs'[k]) { if k in cs { assert CallOk(ss, k, cs[k]); } }
    forall t | t in ss
      ensures Seated(ss[t], t, cs', S.past.room) && Apart(ss[t], cs', t, {}) && Covers(ss[t], cs', t, {})
      ensures AtRest(ss[t], false)
    {
      assert Seated(ss[t], t, cs, S.past.room);
      SamePeers(ss[t], cs, cs', t, {});
    }
  }

  /** The mesh of a session depends on its own call's roster only. */
  lemma SamePeers(s: Session, cs: Calls, cs': Calls, t: Sid, owed: Debts)
    requires s.callKey.Some? ==> s.callKey.value in cs && s.callKey.value in cs'
    requires s.callKey.Some? ==> cs'[s.callKey.value].participants == cs[s.callKey.value].participants
    ensures Apart(s, cs', t, owed) == Apart(s, cs, t, owed) && Covers(s, cs', t, owed) == Covers(s, cs, t, owed)
  {
    assert forall p :: Peer(s, cs', t, p) <==> Peer(s, cs, t, p);
  }

  /** Everyone on the roster `ps` owes the newcomer `sid` an introduction. */
  ghost function DebtsTo(ps: seq<Sid>, sid: Sid): Debts { set p | p in ps :: (p, sid) }

  ghost predicate Admissible(S: Srv, sid: Sid, key: CallKey) {
    && Inv(S) && sid in S.table.sessions && S.table.sessions[sid].phase.AwaitingJoin?
    && key in S.table.calls && key.owner == S.table.sessions[sid].owner
    && |S.table.calls[key].participants| < S.table.calls[key].cap
  }

  lemma AdmitRosters(S: Srv, sid: Sid, key: CallKey)
    requires Admissible(S, sid, key)
    ensures var S' := Admit(S, sid, key);
            Rosters(S'.table.sessions, S'.table.calls, S'.past.room, S'.loop.nextSid)
  {
    hide NamesOk, TimersOk, LogsOk, MediaOk, SignalingOk, Mesh;
    var S' := Admit(S, sid, key);
    var ss, ss', cs, cs' := S.table.sessions, S'.table.sessions, S.table.calls, S'.table.calls;
    assert PhaseOk(ss[sid]);
    forall k | k in cs' ensures CallOk(ss', k, cs'[k]) {
      assert CallOk(ss, k, cs[k]);
    }
    forall t | t in ss' ensures Seated(ss'[t], t, cs', S'.past.room) && PhaseOk(ss'[t]) {
      assert Seated(ss[t], t, cs, S.past.room) && PhaseOk(ss[t]);
    }
  }

  lemma AdmitMesh(S: Srv, sid: Sid, key: CallKey)
    requires Admissible(S, sid, key)
    ensures var S' := Admit(S, sid, key);
            Mesh(S'.table.sessions, S'.table.calls, DebtsTo(S.table.calls[key].participants, sid), {})
  {
    hide NamesOk, TimersOk, LogsOk, MediaOk, SignalingOk;
    var S' := Admit(S, sid, key);
    var ss, cs, cs' := S.table.sessions, S.table.calls, S'.table.calls;
    var owed := DebtsTo(cs[key].participants, sid);
    assert PhaseOk(ss[sid]);
    forall t | t in S'.table.sessions && t != sid
      ensures Apart(ss[t], cs', t, owed) && Covers(ss[t], cs', t, owed) && AtRest(ss[t], false)
    {
      assert Apart(ss[t], cs, t, {}) && Covers(ss[t], cs, t, {}) && AtRest(ss[t], false);
      assert Seated(ss[t], t, cs, S.past.room) && CallOk(ss, key, cs[key]);
      AdmitMeshAt(ss[t], cs, cs', t, sid, key);
    }
  }

  lemma AdmitMeshAt(s: Session, cs: Calls, cs': Calls, t: Sid, sid: Sid, key: CallKey)
    requires Apart(s, cs, t, {}) && Covers(s, cs, t, {}) && t != sid
    requires s.callKey.Some? ==> s.callKey.value in cs
    requires key in cs && cs'.Keys == cs.Keys && cs'[key].participants == cs[key].participants + [sid]
    requires forall k :: k in cs && k != key ==> cs'[k] == cs[k]
    requires t in cs[key].participants <==> s.callKey == Some(key)
    requires forall k :: k in cs ==> sid !in cs[k].participants
    ensures Apart(s, cs', t, DebtsTo(cs[key].participants, sid))
    ensures Covers(s, cs', t, DebtsTo(cs[key].participants, sid))
  {
    var owed := DebtsTo(cs[key].participants, sid);
    assert forall p :: Peer(s, cs', t, p) <==> Peer(s, cs, t, p) || (p == sid && s.callKey == Some(key));
    assert forall p :: (t, p) in owed <==> p == sid && t in cs[key].participants;
  }

  lemma AdmitNames(S: Srv, sid: Sid, key: CallKey)
    requires Admissible(S, sid, key)
    ensures var S' := Admit(S, sid, key);
            NamesOk(S'.table.sessions, S'.loop.idCounter) && TimersOk(S'.table.sessions, S'.loop.dirty)
  {
    hide LogsOk, MediaOk, SignalingOk, Covers, AtRest;
    var S' := Admit(S, sid, key);
    var ss, ss' := S.table.sessions, S'.table.sessions;
    assert PhaseOk(ss[sid]);
    forall t, e | t in ss' && e in ss'[t].tx.queued ensures e.src in ss' && ss'[e.src].sfuId == e.sfu {
      assert e in ss[t].tx.queued && Apart(ss[t], S.table.calls, t, {}) && Peer(ss[t], S.table.calls, t, e.src);
      assert CallOk(ss, ss[t].callKey.value, S.table.calls[ss[t].callKey.value]);
      assert e.src != sid;
    }
  }

  lemma AdmitSignaling(S: Srv, sid: Sid, key: CallKey)
    requires Admissible(S, sid, key)
    ensures var S' := Admit(S, sid, key);
            SignalingOk(S'.table.sessions, S'.past.sent, S'.past.accepted, S'.loop.idCounter)
  {
    hide LogsOk, MediaOk, Mesh, NamesOk, TimersOk;
    var S' := Admit(S, sid, key);
    var ss, ss', sent := S.table.sessions, S'.table.sessions, S.past.sent;
    forall t | t in ss' ensures ToldHaveSlots(ss', t, sent[t]) {
      assert ToldHaveSlots(ss, t, sent[t]);
      assert !Told(sent[t], S.loop.idCounter + 1);
    }
  }

  lemma AdmitMedia(S: Srv, sid: Sid, key: CallKey)
    requires Admissible(S, sid, key)
    ensures var S' := Admit(S, sid, key);
            MediaOk(S'.table.sessions, S'.past.streams, S'.past.heard, S'.past.room, S'.loop.nextSid)
  {
    hide LogsOk, SignalingOk, Mesh, NamesOk, TimersOk, Carries;
    var S' := Admit(S, sid, key);
    var ss, ss', streams := S.table.sessions, S'.table.sessions, S.past.streams;
    assert PhaseOk(ss[sid]) && Seated(ss[sid], sid, S.table.calls, S.past.room);
    forall k | k in streams
      ensures StreamLive(k, streams[k], ss', S.past.heard) && StreamPast(k, streams[k], S'.past.room, S.past.heard)
    {
      assert StreamLive(k, streams[k], ss, S.past.heard) && StreamPast(k, streams[k], S.past.room, S.past.heard);
      assert k.target != sid && streams[k].source != sid;
    }
  }

  lemma AdmitKeeps(S: Srv, sid: Sid, key: CallKey)
    requires Admissible(S, sid, key)
    ensures InvDuring(Admit(S, sid, key), DebtsTo(S.table.calls[key].participants, sid), {})
  {
    AdmitRosters(S, sid, key);
    AdmitMesh(S, sid, key);
    AdmitNames(S, sid, key);
    AdmitSignaling(S, sid, key);
    AdmitMedia(S, sid, key);
    hide Rosters, Mesh, NamesOk, TimersOk, LogsOk, MediaOk, SignalingOk;
  }

  // ---- introductions ---------------------------------------------------------

  lemma {:induction false} ListedEffect(S: Srv, ps: seq<Sid>, sid: Sid)
    requires NoDup(ps)
    ensures var r := Listed(S, ps, sid);
            && Distinct(r)
            && (forall e :: e in r ==>
                  e.src in ps && e.src != sid && e.src in S.table.sessions && e.sfu == S.table.sessions[e.src].sfuId)
            && (forall p :: p in ps && p != sid && p in S.table.sessions ==> Source(p, S.table.sessions[p].sfuId) in r)
  {
    if ps != [] {
      assert ps == [ps[0]] + ps[1..] && ps[0] !in ps[1..];
      ListedEffect(S, ps[1..], sid);
      var rest := Listed(S, ps[1..], sid);
      assert forall i :: 0 <= i < |rest| ==> rest[i] in rest;
    }
  }

  ghost function DebtsOf(existing: seq<Source>, sid: Sid): Debts { set e | e in existing :: (e.src, sid) }

  lemma EnqueueMesh(ss: Sessions, cs: Calls, e: Sid, sid: Sid, sfu: SfuId, owed: Debts)
    requires Mesh(ss, cs, owed, {}) && e in ss && (e, sid) in owed && Peer(ss[e], cs, e, sid)
    ensures Mesh(ss[e := SetQueue(ss[e], ss[e].tx.queued + [Source(sid, sfu)])], cs, owed - {(e, sid)}, {e})
  {
    var s := ss[e];
    var s' := SetQueue(s, s.tx.queued + [Source(sid, sfu)]);
    var ss' := ss[e := s'];
    assert Apart(s, cs, e, owed) && Covers(s, cs, e, owed) && AtRest(s, false);
    assert forall p :: Peer(s', cs, e, p) <==> Peer(s, cs, e, p);
    forall p ensures Queues(s', p) <==> Queues(s, p) || p == sid {
      if Queues(s, p) { var x :| x in s.tx.queued && x.src == p; assert x in s'.tx.queued; }
      if p == sid { assert Source(sid, sfu) in s'.tx.queued; }
    }
    forall i | 0 <= i < |s.tx.queued| ensures s.tx.queued[i].src != sid { assert s.tx.queued[i] in s.tx.queued; }
    forall t | t in ss' && t != e
      ensures Apart(ss'[t], cs, t, owed - {(e, sid)}) && Covers(ss'[t], cs, t, owed - {(e, sid)})
      ensures AtRest(ss'[t], t in {e})
    {
      assert Apart(ss[t], cs, t, owed) && Covers(ss[t], cs, t, owed) && AtRest(ss[t], false);
    }
  }

  /** A change to a session's queue alone touches nothing but the mesh and the names. */
  lemma QueueOnly(S: Srv, e: Sid, q: seq<Source>, owed: Debts, loose: set<Sid>)
    requires InvDuring(S, owed, loose) && e in S.table.sessions && !S.table.sessions[e].phase.AwaitingJoin?
    requires forall x :: x in q ==> x.src in S.table.sessions && S.table.sessions[x.src].sfuId == x.sfu
    ensures var S' := SetSession(S, e, SetQueue(S.table.sessions[e], q));
            forall owed', loose' :: Mesh(S'.table.sessions, S.table.calls, owed', loose') ==>
              InvDuring(S', owed', loose')
  {
    hide Rosters, NamesOk, LogsOk, SignalingOk, MediaOk, Mesh;
    var ss, s' := S.table.sessions, SetQueue(S.table.sessions[e], q);
    SeatedAt(S, e, owed, loose);
    SwapRosters(ss, S.table.calls, S.past.room, S.loop.nextSid, e, s');
    SwapNames(ss, S.loop.idCounter, e, s');
    SwapSignaling(ss, S.past.sent, S.past.accepted, S.loop.idCounter, e, s');
    SwapMedia(ss, S.past.streams, S.past.heard, S.past.room, S.loop.nextSid, e, s');
  }

  lemma EnqueueKeeps(S: Srv, e: Sid, sid: Sid, sfu: SfuId, owed: Debts)
    requires InvDuring(S, owed, {}) && e in S.table.sessions && sid in S.table.sessions && (e, sid) in owed && e != sid
    requires S.table.sessions[e].callKey.Some? && S.table.sessions[e].callKey == S.table.sessions[sid].callKey
    requires S.table.sessions[sid].sfuId == sfu
    ensures var s := S.table.sessions[e];
            InvDuring(SetSession(S, e, SetQueue(s, s.tx.queued + [Source(sid, sfu)])), owed - {(e, sid)}, {e})
  {
    hide Rosters, NamesOk, LogsOk, SignalingOk, MediaOk, Mesh, TimersOk;
    var s := S.table.sessions[e];
    var q := s.tx.queued + [Source(sid, sfu)];
    assert Peer(s, S.table.calls, e, sid) && !s.phase.AwaitingJoin? by {
      SeatedAt(S, sid, owed, {});
      SeatedAt(S, e, owed, {});
    }
    EnqueueMesh(S.table.sessions, S.table.calls, e, sid, sfu, owed);
    assert forall x :: x in q ==> x.src in S.table.sessions && S.table.sessions[x.src].sfuId == x.sfu by {
      QueuesAreNamed(S, e, owed, {});
      QueueNamesMatch(S.table.sessions, e, S.loop.idCounter);
    }
    QueueOnly(S, e, q, owed, {});
  }

  lemma QueueNamesMatch(ss: Sessions, e: Sid, idCounter: nat)
    requires e in ss && QueueNames(ss, e, idCounter)
    ensures forall x :: x in ss[e].tx.queued ==> x.src in ss && ss[x.src].sfuId == x.sfu
  {
  }

  /** A debt towards or from nobody is no debt. */
  lemma Forgives(S: Srv, owed: Debts, owed': Debts, loose: set<Sid>)
    requires InvDuring(S, owed, loose) && owed' <= owed
    requires forall d :: d in owed && d !in owed' ==> d.0 !in S.table.sessions
    ensures InvDuring(S, owed', loose)
  {
    hide Rosters, NamesOk, TimersOk, LogsOk, SignalingOk, MediaOk;
    forall t | t in S.table.sessions
      ensures Apart(S.table.sessions[t], S.table.calls, t, owed')
      ensures Covers(S.table.sessions[t], S.table.calls, t, owed')
    {
      assert Apart(S.table.sessions[t], S.table.calls, t, owed) && Covers(S.table.sessions[t], S.table.calls, t, owed);
      assert forall p :: (t, p) in owed ==> (t, p) in owed';
    }
  }

  /** The newcomer `sid` sits in `key` and those of `existing` that are still here do too. */
  ghost predicate Company(S: Srv, existing: seq<Source>, sid: Sid, sfu: SfuId, key: CallKey) {
    && sid in S.table.sessions && S.table.sessions[sid].callKey == Some(key) && S.table.sessions[sid].sfuId == sfu
    && Distinct(existing)
    && forall e :: e in existing ==>
         e.src != sid && (e.src in S.table.sessions ==> S.table.sessions[e.src].callKey == Some(key))
  }

  lemma IntroduceKeeps(S: Srv, existing: seq<Source>, sid: Sid, sfu: SfuId, key: CallKey)
    requires existing != [] && InvDuring(S, DebtsOf(existing, sid), {}) && Company(S, existing, sid, sfu, key)
    ensures var S' := Introduce(S, existing[0].src, sid, sfu);
            && InvDuring(S', DebtsOf(existing[1..], sid), {}) && Company(S', existing[1..], sid, sfu, key)
            && S'.loop.crashed == S.loop.crashed && S'.env == S.env
  {
    hide Rosters, Mesh, NamesOk, TimersOk, LogsOk, SignalingOk, MediaOk, MaybeNegotiate;
    var e := existing[0].src;
    var owed, owed' := DebtsOf(existing, sid), DebtsOf(existing[1..], sid);
    assert existing[0] in existing && (e, sid) in owed;
    assert owed' == owed - {(e, sid)} by {
      assert forall x :: x in existing <==> x == existing[0] || x in existing[1..];
      assert forall x :: x in existing[1..] ==> x.src != e;
    }
    var S' := Introduce(S, e, sid, sfu);
    if e in S.table.sessions {
      var s := S.table.sessions[e];
      var S1 := SetSession(S, e, SetQueue(s, s.tx.queued + [Source(sid, sfu)]));
      EnqueueKeeps(S, e, sid, sfu, owed);
      MaybeNegotiateKeeps(S1, e, owed', {e});
      MaybeNegotiateOnlyLoses(S1, e, owed', {e});
      assert {e} - {e} == {};
    } else {
      Forgives(S, owed, owed', {});
      MaybeNegotiateKeeps(S, e, owed', {});
      MaybeNegotiateOnlyLoses(S, e, owed', {});
      assert {} - {e} == {};
    }
  }

  lemma {:induction false} IntroduceAllKeeps(S: Srv, existing: seq<Source>, sid: Sid, sfu: SfuId, key: CallKey)
    requires InvDuring(S, DebtsOf(existing, sid), {}) && Company(S, existing, sid, sfu, key)
    ensures var S' := IntroduceAll(S, existing, sid, sfu);
            && Inv(S') && S'.loop.crashed == S.loop.crashed && sid in S'.table.sessions
            && S'.table.sessions[sid].callKey == Some(key)
    decreases |existing|
  {
    hide Rosters, Mesh, NamesOk, TimersOk, LogsOk, SignalingOk, MediaOk, Introduce;
    if existing == [] {
      assert DebtsOf(existing, sid) == {};
    } else {
      IntroduceKeeps(S, existing, sid, sfu, key);
      IntroduceAllKeeps(Introduce(S, existing[0].src, sid, sfu), existing[1..], sid, sfu, key);
    }
  }

  // ---- the whole join ----------------------------------------------------------

  /** The existing participants, as the join handler collects them, are the roster before it. */
  lemma AdmitCompany(S: Srv, sid: Sid, key: CallKey)
    requires Admissible(S, sid, key)
    ensures var S1 := Admit(S, sid, key);
            var existing := Listed(S1, S1.table.calls[key].participants, sid);
            && DebtsOf(existing, sid) == DebtsTo(S.table.calls[key].participants, sid)
            && Company(S1, existing, sid, S1.loop.idCounter, key)
  {
    hide NamesOk, TimersOk, LogsOk, MediaOk, SignalingOk, Mesh;
    AdmitRosters(S, sid, key);
    var S1 := Admit(S, sid, key);
    var ps, ps1 := S.table.calls[key].participants, S1.table.calls[key].participants;
    assert CallOk(S1.table.sessions, key, S1.table.calls[key]);
    ListedEffect(S1, ps1, sid);
    var existing := Listed(S1, ps1, sid);
    assert sid !in ps by { assert CallOk(S.table.sessions, key, S.table.calls[key]) && PhaseOk(S.table.sessions[sid]); }
    forall d | d in DebtsTo(ps, sid) ensures d in DebtsOf(existing, sid) {
      assert Source(d.0, S1.table.sessions[d.0].sfuId) in existing;
    }
  }

  /**
   * Seating a participant panics the loop exactly when its acknowledgement is not delivered; otherwise the invariant
   * holds.
   */
  lemma SeatKeeps(S: Srv, sid: Sid, key: CallKey)
    requires Admissible(S, sid, key) && !S.loop.crashed
    ensures var S' := Seat(S, sid, key);
            && (S'.loop.crashed <==> !S.env.w.delivers(S.loop.tick))
            && (!S'.loop.crashed ==> Inv(S') && sid in S'.table.sessions && S'.table.sessions[sid].callKey == Some(key))
  {
    hide Rosters, Mesh, NamesOk, TimersOk, LogsOk, SignalingOk, MediaOk, Listed, CloseSession, IntroduceAll;
    var S1 := Admit(S, sid, key);
    var existing := Listed(S1, S1.table.calls[key].participants, sid);
    var owed := DebtsOf(existing, sid);
    var sfu := S1.loop.idCounter;
    var f := JoinAck(sfu, S1.table.calls[key].cap, Names(existing));
    AdmitKeeps(S, sid, key);
    AdmitCompany(S, sid, key);
    InvSent(S1, owed, {});
    TrySendKeeps(S1, sid, f, owed, {});
    if S.env.w.delivers(S.loop.tick) {
      IntroduceAllKeeps(TrySend(S1, sid, f), existing, sid, sfu, key);
    } else {
      CloseKeeps(TrySend(S1, sid, f), sid, None, owed, {});
    }
  }

  /** The join is let in: no refusal, and the call it names has room. */
  ghost predicate Admitted(S: Srv, sid: Sid, token: seq<byte>)
    requires sid in S.table.sessions
  {
    && JoinError(S, sid, token).None?
    && (JoinKey(S, sid, token) in S.table.calls ==>
          var call := S.table.calls[JoinKey(S, sid, token)]; |call.participants| < call.cap)
  }

  /** The number of the question "is the acknowledgement delivered?": a new call reads the clock first. */
  function AckTick(S: Srv, sid: Sid, token: seq<byte>): nat
    requires sid in S.table.sessions
  {
    if JoinKey(S, sid, token) in S.table.calls then S.loop.tick else S.loop.tick + 1
  }

  lemma HandleJoinKeeps(S: Srv, sid: Sid, token: seq<byte>)
    requires Inv(S) && sid in S.table.sessions && !S.loop.crashed
    ensures var S' := HandleJoin(S, sid, token);
            && (S'.loop.crashed <==> Admitted(S, sid, token) && !S.env.w.delivers(AckTick(S, sid, token)))
            && (!S'.loop.crashed ==> Inv(S'))
            && (!S'.loop.crashed && Admitted(S, sid, token) ==>
                  sid in S'.table.sessions && S'.table.sessions[sid].callKey == Some(JoinKey(S, sid, token)))
  {
    hide Rosters, Mesh, NamesOk, TimersOk, LogsOk, SignalingOk, MediaOk, CloseSession, Seat, TrySend;
    var err := JoinError(S, sid, token);
    if err.Some? {
      CloseKeeps(S, sid, Some(Error(err.value)), {}, {});
    } else {
      var key := JoinKey(S, sid, token);
      var S1 := if key in S.table.calls then S else NewCall(S, key);
      if key !in S.table.calls { NewCallKeeps(S, key); }
      if |S1.table.calls[key].participants| >= S1.table.calls[key].cap {
        InvSent(S1, {}, {});
        TrySendKeeps(S1, sid, Full, {}, {});
        CloseKeeps(TrySend(S1, sid, Full), sid, None, {}, {});
      } else {
        SeatKeeps(S1, sid, key);
      }
    }
  }
}
