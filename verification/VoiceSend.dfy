/** Sending a frame keeps the invariant, also when the send closes the session it was meant for. */
module VoiceSend {
  import opened Basics
  import opened VoiceTypes
  import opened VoiceSpec
  import opened VoiceInvariant
  import opened VoiceClose
  import opened VoiceGone

  lemma TrySendKeeps(S: Srv, sid: Sid, frame: ServerFrame, owed: Debts, loose: set<Sid>)
    requires InvDuring(S, owed, loose) && sid in S.past.sent && Quiet(frame)
    ensures InvDuring(TrySend(S, sid, frame), owed, loose)
    ensures TrySend(S, sid, frame).table == S.table && TrySend(S, sid, frame).loop.crashed == S.loop.crashed
  {
    hide Rosters, Mesh, NamesOk, TimersOk, LogsOk, MediaOk, SignalingOk;
    var S' := TrySend(S, sid, frame);
    assert QuietlyExtends(S.past.sent, S'.past.sent) by {
      if S'.past.sent != S.past.sent {
        assert S'.past.sent == S.past.sent[sid := S.past.sent[sid] + [frame]];
      }
    }
    QuietLogs(S.past.sent, S'.past.sent, S.past.accepted, S.loop.nextSid);
    QuietSignaling(S.table.sessions, S.past.sent, S'.past.sent, S.past.accepted, S.loop.idCounter);
  }

  lemma SendKeeps(S: Srv, sid: Sid, frame: ServerFrame, owed: Debts, loose: set<Sid>)
    requires InvDuring(S, owed, loose) && Quiet(frame)
    ensures InvDuring(Send(S, sid, frame), owed, loose) && Send(S, sid, frame).loop.crashed == S.loop.crashed
  {
    hide Rosters, Mesh, NamesOk, TimersOk, LogsOk, MediaOk, TrySend, CloseSession;
    if sid in S.table.sessions {
      TrySendKeeps(S, sid, frame, owed, loose);
      CloseKeeps(TrySend(S, sid, frame), sid, None, owed, loose);
    }
  }

  /** Closing looks only at a session's call and name. */
  lemma CloseSame(S: Srv, sid: Sid, s: Session, final: Option<ServerFrame>)
    requires sid in S.table.sessions
    requires s.callKey == S.table.sessions[sid].callKey && s.sfuId == S.table.sessions[sid].sfuId
    ensures CloseSession(SetSession(S, sid, s), sid, final) == CloseSession(S, sid, final)
  {
    hide Leave, SendFinal;
    assert S.table.sessions[sid := s] - {sid} == S.table.sessions - {sid};
    assert RemoveSession(SetSession(S, sid, s), sid) == RemoveSession(S, sid);
  }

  /** More dirty sessions, more questions asked: the invariant does not mind. */
  lemma Idles(S: Srv, dirty: seq<Sid>, tick: nat, owed: Debts, loose: set<Sid>)
    requires InvDuring(S, owed, loose) && forall t :: t in S.loop.dirty ==> t in dirty
    ensures InvDuring(S.(loop := S.loop.(dirty := dirty, tick := tick)), owed, loose)
  {
    hide Rosters, Mesh, NamesOk, LogsOk, MediaOk, SignalingOk;
  }

  /** A refused frame closes the session, so whatever had been done to that session alone does not matter. */
  lemma RefusedKeeps(S: Srv, sid: Sid, s: Session, frame: ServerFrame, owed: Debts, loose: set<Sid>)
    requires InvDuring(S, owed, loose) && sid in S.table.sessions && !S.env.w.delivers(S.loop.tick)
    requires s.callKey == S.table.sessions[sid].callKey && s.sfuId == S.table.sessions[sid].sfuId
    ensures var S' := Send(MarkDirty(SetSession(S, sid, s), sid), sid, frame);
            InvDuring(S', owed, loose) && sid !in S'.table.sessions && S'.loop.crashed == S.loop.crashed
  {
    hide Rosters, Mesh, NamesOk, TimersOk, LogsOk, MediaOk, SignalingOk, CloseSession;
    var S1 := S.(loop := S.loop.(dirty := S.loop.dirty + [sid], tick := S.loop.tick + 1));
    Idles(S, S1.loop.dirty, S1.loop.tick, owed, loose);
    assert Send(MarkDirty(SetSession(S, sid, s), sid), sid, frame) == CloseSession(SetSession(S1, sid, s), sid, None);
    CloseSame(S1, sid, s, None);
    CloseKeeps(S1, sid, None, owed, loose);
  }

  /** A queue that is at rest need not be excused any longer. */
  lemma Settles(S: Srv, sid: Sid, owed: Debts, loose: set<Sid>)
    requires InvDuring(S, owed, loose)
    requires sid in S.table.sessions ==> AtRest(S.table.sessions[sid], false)
    ensures InvDuring(S, owed, loose - {sid})
  {
    hide Rosters, NamesOk, TimersOk, LogsOk, MediaOk, SignalingOk;
  }
}
