/** Replacing one session's record: which fields each part of the invariant looks at. */
module VoiceSwap {
  import opened Basics
  import opened VoiceTypes
  import opened VoiceSpec
  import opened VoiceInvariant

  /** The same participant in the same call. */
  ghost predicate SameSeat(s: Session, s': Session) {
    s'.callKey == s.callKey && s'.sfuId == s.sfuId && s'.owner == s.owner
  }

  lemma SwapRosters(ss: Sessions, cs: Calls, room: map<Sid, CallKey>, nextSid: Sid, sid: Sid, s: Session)
    requires Rosters(ss, cs, room, nextSid) && sid in ss && SameSeat(ss[sid], s) && PhaseOk(s)
    ensures Rosters(ss[sid := s], cs, room, nextSid)
  {
    var ss' := ss[sid := s];
    forall k | k in cs ensures CallOk(ss', k, cs[k]) { assert CallOk(ss, k, cs[k]); }
    assert Seated(ss[sid], sid, cs, room);
  }

  lemma SwapNames(ss: Sessions, idCounter: nat, sid: Sid, s: Session)
    requires NamesOk(ss, idCounter) && sid in ss && SameSeat(ss[sid], s)
    requires forall e :: e in s.tx.queued ==> e.src in ss && ss[e.src].sfuId == e.sfu
    ensures NamesOk(ss[sid := s], idCounter)
  {
  }

  lemma SwapSignaling(ss: Sessions, sent: map<Sid, seq<ServerFrame>>, accepted: map<Sid, nat>, idCounter: nat, sid: Sid,
                      s: Session)
    requires SignalingOk(ss, sent, accepted, idCounter) && sid in ss && SameSeat(ss[sid], s)
    requires s.tx.offerPending == ss[sid].tx.offerPending && ss[sid].tx.slots.Keys <= s.tx.slots.Keys
    ensures SignalingOk(ss[sid := s], sent, accepted, idCounter)
  {
    hide Told;
    var ss' := ss[sid := s];
    forall t | t in ss' ensures ToldHaveSlots(ss', t, sent[t]) { assert ToldHaveSlots(ss, t, sent[t]); }
  }

  /** The same downstream streams. */
  ghost predicate SameStreams(s: Session, s': Session) {
    && s'.tx.slots == s.tx.slots && s'.nextSsrc == s.nextSsrc && s'.opusPt == s.opusPt && s'.phase == s.phase
    && s'.rtc.Some? == s.rtc.Some? && (s.rtc.Some? ==> s'.rtc.value.nextMid == s.rtc.value.nextMid)
  }

  lemma SwapMedia(ss: Sessions, streams: map<StreamKey, Stream>, heard: map<Sid, seq<Packet>>, room: map<Sid, CallKey>,
                  nextSid: Sid, sid: Sid, s: Session)
    requires MediaOk(ss, streams, heard, room, nextSid) && sid in ss && SameStreams(ss[sid], s)
    ensures MediaOk(ss[sid := s], streams, heard, room, nextSid)
  {
    hide StreamPast;
    var ss' := ss[sid := s];
    forall k | k in streams
      ensures StreamLive(k, streams[k], ss', heard)
    {
      assert StreamLive(k, streams[k], ss, heard);
    }
    forall src | src in s.tx.slots
      ensures s.rtc.Some? && SlotOk(s, sid, src, streams)
    {
      assert SlotOk(ss[sid], sid, src, streams);
    }
    assert SlotsDistinct(ss[sid]);
  }
}
