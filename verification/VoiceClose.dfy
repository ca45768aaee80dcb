/** Closing a session, from inside any handler, keeps the invariant. */
module VoiceClose {
  import opened Basics
  import opened VoiceTypes
  import opened VoiceSpec
  import opened VoiceInvariant

  /** Frames that neither offer an m-line nor announce a peer. */
  predicate Quiet(f: ServerFrame) { !f.Offer? && !f.PeerJoined? }

  ghost predicate QuietSuffix(a: seq<ServerFrame>, b: seq<ServerFrame>) {
    a <= b && forall i :: |a| <= i < |b| ==> Quiet(b[i])
  }

  ghost predicate QuietlyExtends(a: map<Sid, seq<ServerFrame>>, b: map<Sid, seq<ServerFrame>>) {
    b.Keys == a.Keys && forall t :: t in a ==> QuietSuffix(a[t], b[t])
  }

  lemma QuietTwice(a: map<Sid, seq<ServerFrame>>, b: map<Sid, seq<ServerFrame>>, c: map<Sid, seq<ServerFrame>>)
    requires QuietlyExtends(a, b) && QuietlyExtends(b, c)
    ensures QuietlyExtends(a, c)
  {
  }

  /** Nothing but sessions, calls, delivered frames and the question count may differ. */
  ghost predicate SameBut(S: Srv, S': Srv) {
    S' == S.(table := S'.table, loop := S.loop.(tick := S'.loop.tick), past := S.past.(sent := S'.past.sent))
  }

  /** What closing does, said in one go. */
  ghost predicate Gone(S: Srv, S': Srv, gone: Sid) {
    && S'.table.sessions.Keys == S.table.sessions.Keys - {gone}
    && (forall t :: t in S'.table.sessions ==> S'.table.sessions[t] == Forget(S.table.sessions[t], gone))
    && S'.table.calls.Keys == S.table.calls.Keys
    && (forall k :: k in S.table.calls ==>
          && S'.table.calls[k].participants == Without(S.table.calls[k].participants, gone)
          && S'.table.calls[k].cap == S.table.calls[k].cap
          && (S'.table.calls[k].emptySince.Some? <==> S'.table.calls[k].participants == []))
    && QuietlyExtends(S.past.sent, S'.past.sent)
    && SameBut(S, S')
  }

  lemma {:induction false} ForgetAllFrame(S: Srv, rest: seq<Sid>, gone: Sid, sfu: SfuId)
    ensures var S' := ForgetAll(S, rest, gone, sfu);
            SameBut(S, S') && S'.table.calls == S.table.calls
    decreases |rest|
  {
    if rest != [] { ForgetAllFrame(ForgetOne(S, rest[0], gone, sfu), rest[1..], gone, sfu); }
  }

  lemma {:induction false} ForgetAllSessions(S: Srv, rest: seq<Sid>, gone: Sid, sfu: SfuId)
    requires NoDup(rest)
    ensures var S' := ForgetAll(S, rest, gone, sfu);
            && S'.table.sessions.Keys == S.table.sessions.Keys
            && (forall t :: t in S.table.sessions ==>
                  S'.table.sessions[t] == if t in rest then Forget(S.table.sessions[t], gone) else S.table.sessions[t])
    decreases |rest|
  {
    if rest != [] {
      assert rest[0] !in rest[1..];
      assert forall t :: t in rest <==> t == rest[0] || t in rest[1..];
      ForgetAllSessions(ForgetOne(S, rest[0], gone, sfu), rest[1..], gone, sfu);
    }
  }

  lemma QuietNever(sent: map<Sid, seq<ServerFrame>>)
    ensures QuietlyExtends(sent, sent)
  {
  }

  lemma ForgetOneLogs(S: Srv, p: Sid, gone: Sid, sfu: SfuId)
    requires S.table.sessions.Keys <= S.past.sent.Keys
    ensures var S' := ForgetOne(S, p, gone, sfu);
            && QuietlyExtends(S.past.sent, S'.past.sent)
            && S'.table.sessions.Keys == S.table.sessions.Keys && S'.past.sent.Keys == S.past.sent.Keys
  {
    hide Forget;
    var S' := ForgetOne(S, p, gone, sfu);
    assert S'.past.sent == S.past.sent || S'.past.sent == S.past.sent[p := S.past.sent[p] + [PeerLeft(sfu)]];
  }

  lemma {:induction false} ForgetAllLogs(S: Srv, rest: seq<Sid>, gone: Sid, sfu: SfuId)
    requires S.table.sessions.Keys <= S.past.sent.Keys
    ensures QuietlyExtends(S.past.sent, ForgetAll(S, rest, gone, sfu).past.sent)
    decreases |rest|
  {
    hide ForgetOne, QuietlyExtends;
    if rest == [] {
      QuietNever(S.past.sent);
    } else {
      var S1 := ForgetOne(S, rest[0], gone, sfu);
      ForgetOneLogs(S, rest[0], gone, sfu);
      ForgetAllLogs(S1, rest[1..], gone, sfu);
      QuietTwice(S.past.sent, S1.past.sent, ForgetAll(S, rest, gone, sfu).past.sent);
    }
  }

  lemma ForgetsNothing(s: Session, gone: Sid)
    requires gone !in s.tx.slots && !Queues(s, gone)
    ensures Forget(s, gone) == s
  {
    assert s.tx.slots - {gone} == s.tx.slots;
  }

  /** A session outside the closed one's call has nothing to forget. */
  lemma Unknown(S: Srv, t: Sid, gone: Sid, owed: Debts)
    requires t in S.table.sessions && Apart(S.table.sessions[t], S.table.calls, t, owed)
    requires forall k :: k in S.table.calls ==> CallOk(S.table.sessions, k, S.table.calls[k])
    requires gone in S.table.sessions
    requires S.table.sessions[gone].callKey.None? || S.table.sessions[gone].callKey != S.table.sessions[t].callKey
    ensures Forget(S.table.sessions[t], gone) == S.table.sessions[t]
  {
    ForgetsNothing(S.table.sessions[t], gone);
  }

  lemma SendFinalLogs(S: Srv, sid: Sid, final: Option<ServerFrame>)
    requires sid in S.past.sent && (final.Some? ==> Quiet(final.value))
    ensures QuietlyExtends(S.past.sent, SendFinal(S, sid, final).past.sent)
    ensures SameBut(S, SendFinal(S, sid, final)) && SendFinal(S, sid, final).table == S.table
  {
    var S' := SendFinal(S, sid, final);
    if S'.past.sent != S.past.sent {
      assert S'.past.sent == S.past.sent[sid := S.past.sent[sid] + [final.value]];
    }
  }

  /** What leaving the call `key` does to the table. */
  lemma LeaveEffect(S: Srv, gone: Sid, key: CallKey, sfu: SfuId)
    requires key in S.table.calls && NoDup(S.table.calls[key].participants)
    requires S.table.sessions.Keys <= S.past.sent.Keys
    ensures var S' := Leave(S, gone, Some(key), sfu);
            var rest := Without(S.table.calls[key].participants, gone);
            && key in S'.table.calls && S'.table.calls == S.table.calls[key := S'.table.calls[key]]
            && S'.table.calls[key].participants == rest && S'.table.calls[key].cap == S.table.calls[key].cap
            && S'.table.calls[key].emptySince
               == (if rest == [] then Some(S.env.w.now(S.loop.tick)) else S.table.calls[key].emptySince)
            && S'.table.sessions.Keys == S.table.sessions.Keys
            && (forall t :: t in S.table.sessions ==>
                  S'.table.sessions[t] == if t in rest then Forget(S.table.sessions[t], gone) else S.table.sessions[t])
            && QuietlyExtends(S.past.sent, S'.past.sent) && SameBut(S, S')
  {
    hide Forget;
    var S1 := Unseat(S, key, gone);
    var rest := S1.table.calls[key].participants;
    ForgetAllFrame(S1, rest, gone, sfu);
    ForgetAllSessions(S1, rest, gone, sfu);
    ForgetAllLogs(S1, rest, gone, sfu);
  }

  /** Closing, one level unfolded. */
  lemma CloseUnfolds(S: Srv, sid: Sid, final: Option<ServerFrame>)
    requires sid in S.table.sessions
    ensures var s := S.table.sessions[sid];
            var S1 := SendFinal(RemoveSession(S, sid), sid, final);
            && CloseSession(S, sid, final) == Leave(S1, sid, s.callKey, s.sfuId)
            && (s.callKey.None? ==> CloseSession(S, sid, final) == S1)
  {
    hide SendFinal, RemoveSession, Unseat, ForgetAll;
  }

  /** After leaving, everybody has forgotten the one who left. */
  lemma AllForget(S: Srv, S': Srv, sid: Sid, key: CallKey, owed: Debts, loose: set<Sid>)
    requires Rosters(S.table.sessions, S.table.calls, S.past.room, S.loop.nextSid)
    requires Mesh(S.table.sessions, S.table.calls, owed, loose)
    requires sid in S.table.sessions && S.table.sessions[sid].callKey == Some(key) && key in S.table.calls
    requires S'.table.sessions.Keys == S.table.sessions.Keys - {sid}
    requires var rest := Without(S.table.calls[key].participants, sid);
             forall t :: t in S'.table.sessions ==>
               S'.table.sessions[t] == if t in rest then Forget(S.table.sessions[t], sid) else S.table.sessions[t]
    ensures forall t :: t in S'.table.sessions ==> S'.table.sessions[t] == Forget(S.table.sessions[t], sid)
  {
    hide Forget, PhaseOk, Covers, AtRest, Apart, CallOk;
    forall t | t in S'.table.sessions ensures S'.table.sessions[t] == Forget(S.table.sessions[t], sid) {
      if t !in Without(S.table.calls[key].participants, sid) { Unknown(S, t, sid, owed); }
    }
  }

  /** The same for the rosters: only the one call is touched, and it was the only one with that participant. */
  lemma AllUnseat(S: Srv, S': Srv, sid: Sid, key: CallKey)
    requires Rosters(S.table.sessions, S.table.calls, S.past.room, S.loop.nextSid)
    requires sid in S.table.sessions && S.table.sessions[sid].callKey == Some(key) && key in S.table.calls
    requires key in S'.table.calls
    requires S'.table.calls == S.table.calls[key := S'.table.calls[key]]
    requires S'.table.calls[key].participants == Without(S.table.calls[key].participants, sid)
    requires S'.table.calls[key].cap == S.table.calls[key].cap
    requires S'.table.calls[key].participants != [] ==> S'.table.calls[key].emptySince == S.table.calls[key].emptySince
    requires S'.table.calls[key].participants == [] ==> S'.table.calls[key].emptySince.Some?
    ensures S'.table.calls.Keys == S.table.calls.Keys
    ensures forall k :: k in S.table.calls ==>
              && S'.table.calls[k].participants == Without(S.table.calls[k].participants, sid)
              && S'.table.calls[k].cap == S.table.calls[k].cap
              && (S'.table.calls[k].emptySince.Some? <==> S'.table.calls[k].participants == [])
  {
    hide PhaseOk, Seated;
    OneSeat(S, sid);
    forall k | k in S.table.calls
      ensures S'.table.calls[k].participants == Without(S.table.calls[k].participants, sid)
      ensures S'.table.calls[k].cap == S.table.calls[k].cap
      ensures S'.table.calls[k].emptySince.Some? <==> S'.table.calls[k].participants == []
    {
      assert CallOk(S.table.sessions, k, S.table.calls[k]);
    }
  }

  lemma CloseSeated(S: Srv, sid: Sid, final: Option<ServerFrame>, owed: Debts, loose: set<Sid>)
    requires sid in S.table.sessions && S.table.sessions.Keys <= S.past.sent.Keys
    requires S.table.sessions[sid].callKey.Some?
    requires Rosters(S.table.sessions, S.table.calls, S.past.room, S.loop.nextSid)
    requires Mesh(S.table.sessions, S.table.calls, owed, loose)
    requires final.Some? ==> Quiet(final.value)
    ensures Gone(S, CloseSession(S, sid, final), sid)
  {
    hide Forget, Leave, SendFinal, CloseSession, Mesh, Rosters, QuietlyExtends, Without;
    var s := S.table.sessions[sid];
    var key := s.callKey.value;
    var S0 := RemoveSession(S, sid);
    var S1 := SendFinal(S0, sid, final);
    var S' := CloseSession(S, sid, final);
    CloseUnfolds(S, sid, final);
    SendFinalLogs(S0, sid, final);
    assert S1.table.calls == S.table.calls;
    assert key in S.table.calls && NoDup(S.table.calls[key].participants) by { Sits(S, sid); }
    LeaveEffect(S1, sid, key, s.sfuId);
    QuietTwice(S.past.sent, S1.past.sent, S'.past.sent);
    AllForget(S, S', sid, key, owed, loose);
    AllUnseat(S, S', sid, key);
  }

  lemma Sits(S: Srv, sid: Sid)
    requires Rosters(S.table.sessions, S.table.calls, S.past.room, S.loop.nextSid) && sid in S.table.sessions
    ensures var k := S.table.sessions[sid].callKey; k.Some? ==>
              k.value in S.table.calls && NoDup(S.table.calls[k.value].participants)
  {
    assert Seated(S.table.sessions[sid], sid, S.table.calls, S.past.room);
  }

  lemma CloseUnseated(S: Srv, sid: Sid, final: Option<ServerFrame>, owed: Debts, loose: set<Sid>)
    requires sid in S.table.sessions && S.table.sessions.Keys <= S.past.sent.Keys
    requires S.table.sessions[sid].callKey.None?
    requires Rosters(S.table.sessions, S.table.calls, S.past.room, S.loop.nextSid)
    requires Mesh(S.table.sessions, S.table.calls, owed, loose)
    requires final.Some? ==> Quiet(final.value)
    ensures Gone(S, CloseSession(S, sid, final), sid)
  {
    hide Forget, Leave, SendFinal, CloseSession, PhaseOk, Covers, AtRest, Apart;
    var S' := CloseSession(S, sid, final);
    CloseUnfolds(S, sid, final);
    SendFinalLogs(RemoveSession(S, sid), sid, final);
    forall t | t in S'.table.sessions ensures S'.table.sessions[t] == Forget(S.table.sessions[t], sid) {
      Unknown(S, t, sid, owed);
    }
    OneSeat(S, sid);
    assert forall k :: k in S.table.calls ==> CallOk(S.table.sessions, k, S.table.calls[k]);
  }

  lemma CloseEffect(S: Srv, sid: Sid, final: Option<ServerFrame>, owed: Debts, loose: set<Sid>)
    requires sid in S.table.sessions && S.table.sessions.Keys <= S.past.sent.Keys
    requires Rosters(S.table.sessions, S.table.calls, S.past.room, S.loop.nextSid)
    requires Mesh(S.table.sessions, S.table.calls, owed, loose)
    requires final.Some? ==> Quiet(final.value)
    ensures Gone(S, CloseSession(S, sid, final), sid)
  {
    hide Gone, CloseSession, Rosters, Mesh;
    if S.table.sessions[sid].callKey.Some? {
      CloseSeated(S, sid, final, owed, loose);
    } else {
      CloseUnseated(S, sid, final, owed, loose);
    }
  }

  /** Nobody sits in a call other than their own. */
  lemma OneSeat(S: Srv, sid: Sid)
    requires Rosters(S.table.sessions, S.table.calls, S.past.room, S.loop.nextSid) && sid in S.table.sessions
    ensures forall k :: k in S.table.calls && S.table.sessions[sid].callKey != Some(k) ==>
              sid !in S.table.calls[k].participants
  {
    hide Seated, PhaseOk;
    forall k | k in S.table.calls && S.table.sessions[sid].callKey != Some(k)
      ensures sid !in S.table.calls[k].participants
    {
      assert CallOk(S.table.sessions, k, S.table.calls[k]);
    }
  }
}
