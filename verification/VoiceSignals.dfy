/**
 * What a client hears in reply to its offers and answers: the error that ends its session, or its answer, and then the
 * next m-lines on offer with the names of those they are for.
 */
module VoiceSignals {
  import opened Basics
  import opened VoiceTypes
  import opened VoiceSpec
  import opened VoiceInvariant
  import VoiceClose
  import opened VoiceNegotiate
  import opened VoiceSend
  import opened VoiceAnswer
  import opened VoiceMedia
  import opened VoiceLoop
  import opened VoiceFrames

  // ---- errors ---------------------------------------------------------------------------------

  /** What is wrong with a client's offer, answer or candidate, if anything is. */
  function Fault(s: Session, frame: ClientFrame): Option<ErrorCode> {
    match frame
    case ClientOffer(offer) => if s.phase.AwaitingOffer? && offer.GoodOffer? then None else Some(Protocol)
    case ClientAnswer(answer) =>
      if !s.phase.Steady? || !s.tx.offerPending || answer.BadAnswer? then Some(Protocol)
      else if answer.RefusedAnswer? then Some(Internal)
      else None
    case Ice(_) => if s.phase.AwaitingJoin? then Some(Protocol) else None
    case _ => None
  }

  /** A faulty frame ends its session, which is told the error; the rest of the call is told that it left. */
  lemma FaultTells(S: Srv, sid: Sid, frame: ClientFrame)
    requires Inv(S) && sid in S.table.sessions && !frame.Join? && Fault(S.table.sessions[sid], frame).Some?
    ensures var code := Fault(S.table.sessions[sid], frame).value;
            && DispatchFrame(S, sid, frame) == CloseSession(S, sid, Some(Error(code)))
            && sid !in DispatchFrame(S, sid, frame).table.sessions
            && Log(DispatchFrame(S, sid, frame), sid) == Log(S, sid) + Heard(S, S.loop.tick, Error(code))
  {
    hide Inv, CloseSession, MaybeNegotiate, Send, Listed, DeclareBelow, Log, Heard;
    var s, code := S.table.sessions[sid], Fault(S.table.sessions[sid], frame).value;
    assert s.rtc.None? <==> s.phase.AwaitingJoin? by { HasRtc(S, sid); }
    CloseSame(S, sid, s.(tx := s.tx.(offerPending := false)), Some(Error(code)));
    CloseTells(S, sid, Some(Error(code)));
    CloseGone(S, sid, Some(Error(code)));
  }

  /** A goodbye is returned. */
  lemma ByeTells(S: Srv, sid: Sid)
    requires Inv(S) && sid in S.table.sessions
    ensures var S' := DispatchFrame(S, sid, ClientBye);
            sid !in S'.table.sessions && Log(S', sid) == Log(S, sid) + Heard(S, S.loop.tick, Bye)
  {
    hide Inv, CloseSession, Log, Heard;
    CloseTells(S, sid, Some(Bye));
    CloseGone(S, sid, Some(Bye));
  }

  // ---- who hears nothing ------------------------------------------------------------------------

  /** Nobody hears anything but who left. */
  ghost predicate Hushed(S: Srv, S': Srv) { forall t :: Said(Log(S', t)) == Said(Log(S, t)) }

  lemma CloseHushed(S: Srv, sid: Sid)
    ensures Hushed(S, CloseSession(S, sid, None))
  {
    hide CloseSession, Log, Said;
    if sid in S.table.sessions {
      CloseSaid(S, sid);
    } else {
      Absent(S, sid);
    }
  }

  lemma Absent(S: Srv, sid: Sid)
    requires sid !in S.table.sessions
    ensures CloseSession(S, sid, None) == S
  {
  }

  lemma SameSent(S: Srv, S': Srv)
    requires S'.past.sent == S.past.sent
    ensures Hushed(S, S')
  {
  }

  lemma {:induction false} ForwardAllSent(S: Srv, src: Sid, ps: seq<Packet>)
    ensures ForwardAll(S, src, ps).past.sent == S.past.sent
    decreases |ps|
  {
    hide FanOut, Without;
    if ps != [] {
      var key := if src in S.table.sessions then S.table.sessions[src].callKey else None;
      FanOutSent(S.(past := S.past.(heard := S.past.heard[src := HeardFrom(S, src) + [ps[0]]])),
                 Without(Roster(S, key), src), src, ps[0]);
      ForwardAllSent(ForwardRtp(S, src, ps[0]), src, ps[1..]);
    }
  }

  lemma {:induction false} FanOutSent(S: Srv, targets: seq<Sid>, src: Sid, p: Packet)
    ensures FanOut(S, targets, src, p).past.sent == S.past.sent
    decreases |targets|
  {
    if targets != [] { FanOutSent(ForwardTo(S, targets[0], src, p), targets[1..], src, p); }
  }

  lemma DrainHushed(S: Srv, sid: Sid)
    ensures Hushed(S, DrainSession(S, sid))
  {
    hide CloseSession, ForwardAll, Log, Said;
    if sid in S.table.sessions && S.table.sessions[sid].rtc.Some? {
      var poll, inbound := S.env.w.poll(S.loop.tick), S.table.sessions[sid].rtc.value.inbound;
      var S1 := SetSession(Ticked(S), sid, Polled(S.table.sessions[sid], poll));
      var S2 := ForwardAll(S1, sid, inbound[..Taken(poll, inbound)]);
      ForwardAllSent(S1, sid, inbound[..Taken(poll, inbound)]);
      SameSent(S, S2);
      CloseHushed(S2, sid);
    }
  }

  lemma {:induction false} DrainReadyHushed(S: Srv)
    ensures Hushed(S, DrainReady(S))
    decreases Backlog(S.table.sessions), |S.loop.dirty|
  {
    hide DrainSession, Log, Said;
    if S.loop.dirty != [] {
      DrainProgress(S);
      SameSent(S, Popped(S));
      DrainHushed(Popped(S), S.loop.dirty[0]);
      DrainReadyHushed(DrainSession(Popped(S), S.loop.dirty[0]));
    }
  }

  lemma {:induction false} TimeOutEachHushed(S: Srv, due: seq<Sid>, failing: set<Sid>)
    ensures Hushed(S, TimeOutEach(S, due, failing))
    decreases |due|
  {
    hide CloseSession, Log, Said;
    if due != [] {
      var sid := due[0];
      if sid in S.table.sessions && S.table.sessions[sid].rtc.Some? {
        var S1 := SetSession(S, sid, Disarmed(S.table.sessions[sid]));
        SameSent(S, S1);
        SameSent(S, MarkDirty(S1, sid));
        CloseHushed(S1, sid);
      }
      TimeOutEachHushed(TimeOutOne(S, sid, failing), due[1..], failing);
    }
  }

  /** Inputs that are no client's frame and drop nobody, and all draining: nobody hears anything but who left. */
  lemma OthersAreHushed(S: Srv, input: Input)
    requires Inv(S) && Possible(S, input) && !input.SessionFrame? && !input.DropOwner?
    ensures Hushed(S, Step(S, input))
  {
    hide Inv, CloseSession, DrainReady, TimeOutEach, InsertSlots, DropSlots, Log, Said;
    match input
    case RegisterSlots(owner, entries) => SameSent(S, Step(S, input));
    case OpenSession(owner, callerWaits) => OpenHushed(S, owner, callerWaits);
    case SessionClosed(sid) => CloseHushed(S, sid);
    case PacketIn(route, events) =>
      SameSent(S, S);
      if route.Some? {
        CloseHushed(S, route.value);
        if events.Some? { SameSent(S, Step(S, input)); }
      }
    case Time(now, due, failing) =>
      var S1 := DrainReady(TimeOutEach(S, due, failing));
      TimeOutEachHushed(S, due, failing);
      DrainReadyHushed(TimeOutEach(S, due, failing));
      SameSent(S1, Reap(S1, now));
  }

  lemma OpenHushed(S: Srv, owner: seq<byte>, callerWaits: bool)
    requires Inv(S)
    ensures Hushed(S, HandleOpen(S, owner, callerWaits))
  {
    hide Rosters, Mesh, NamesOk, SignalingOk, MediaOk, TimersOk, LogOk, Said;
    assert S.loop.nextSid !in S.past.sent;
  }

  /** A frame is answered by its handler; the draining after it says nothing more. */
  lemma FrameThenHushed(S: Srv, sid: Sid, frame: ClientFrame)
    requires sid in S.table.sessions
    ensures Hushed(DispatchFrame(S, sid, frame), HandleFrame(S, sid, frame))
  {
    hide DispatchFrame, DrainReady, Log, Said;
    DrainReadyHushed(DispatchFrame(S, sid, frame));
    SameSent(DispatchFrame(S, sid, frame), DispatchFrame(S, sid, frame));
  }

  lemma HasRtc(S: Srv, sid: Sid)
    requires Inv(S) && sid in S.table.sessions
    ensures S.table.sessions[sid].rtc.None? <==> S.table.sessions[sid].phase.AwaitingJoin?
    ensures S.table.sessions[sid].callKey.None? <==> S.table.sessions[sid].phase.AwaitingJoin?
  {
    hide Mesh, NamesOk, LogsOk, SignalingOk, MediaOk, TimersOk, CallOk, Seated;
    assert PhaseOk(S.table.sessions[sid]);
  }

  // ---- re-offers ---------------------------------------------------------------------------------

  function Named(q: seq<Source>, mid: Mid): seq<ServerFrame>
    decreases |q|
  {
    if q == [] then [] else [PeerJoined(q[0].sfu, mid)] + Named(q[1..], mid + 1)
  }

  /** A re-offer as a client hears it: the new m-lines, then for each in turn whose it is. */
  function ReOffer(q: seq<Source>, mid: Mid): seq<ServerFrame> {
    if q == [] then [] else [Offer(Mids(mid, |q|))] + Named(q, mid)
  }

  lemma {:induction false} AnnounceSaid(S: Srv, e: Sid, q: seq<Source>, mid: Mid)
    requires e in S.table.sessions
    ensures var S' := AnnounceAll(S, e, q, mid);
            ToldOrGone(S, S', e, Named(q, mid)) && (e in S'.table.sessions ==> S'.table == S.table)
    decreases |q|
  {
    hide Send, Said, Log;
    if q != [] {
      var f := PeerJoined(q[0].sfu, mid);
      var S1, S' := Send(S, e, f), AnnounceAll(S, e, q, mid);
      SendSaid(S, e, f);
      var said, rest := Said(Log(S, e)), Named(q[1..], mid + 1);
      assert said + [] == said && said + [f] + rest == said + ([f] + rest);
      if e in S1.table.sessions {
        AnnounceSaid(S1, e, q[1..], mid + 1);
      } else {
        AnnounceNobody(S1, e, q[1..], mid + 1);
      }
    } else {
      assert Said(Log(S, e)) + [] == Said(Log(S, e));
    }
  }

  /** The slots a re-offer makes, and those it leaves. */
  lemma OfferedMids(s: Session)
    requires s.rtc.Some? && Distinct(s.tx.queued) && forall x :: x in s.tx.queued ==> x.src !in s.tx.slots
    ensures var s' := Offered(s, s.tx.queued);
            && s'.tx.queued == []
            && (forall p :: p in s.tx.slots ==> p in s'.tx.slots && s'.tx.slots[p] == s.tx.slots[p])
            && forall i :: 0 <= i < |s.tx.queued| ==>
                 s.tx.queued[i].src in s'.tx.slots && s'.tx.slots[s.tx.queued[i].src].mid == s.rtc.value.nextMid + i
  {
    AddSlotsEffect(s.tx.slots, s.tx.queued, s.rtc.value.nextMid, s.nextSsrc);
  }

  /**
   * The next re-offer: each queued source gets the next m-line, in the order of the queue, and is announced with the
   * m-line its slot has. Who does not take all of it is gone.
   */
  lemma NegotiateTells(S: Srv, e: Sid)
    requires e in S.table.sessions && VoiceFrames.Idle(S.table.sessions[e]) && S.table.sessions[e].rtc.Some?
    requires Distinct(S.table.sessions[e].tx.queued)
    requires forall x :: x in S.table.sessions[e].tx.queued ==>
               x.src in Roster(S, S.table.sessions[e].callKey) && x.src !in S.table.sessions[e].tx.slots
    ensures var S', s := MaybeNegotiate(S, e), S.table.sessions[e];
            && ToldOrGone(S, S', e, ReOffer(s.tx.queued, s.rtc.value.nextMid))
            && (e in S'.table.sessions ==>
                  && S'.table.sessions[e].tx.queued == []
                  && (forall p :: p in s.tx.slots ==>
                        p in S'.table.sessions[e].tx.slots && S'.table.sessions[e].tx.slots[p] == s.tx.slots[p])
                  && forall i :: 0 <= i < |s.tx.queued| ==>
                       && s.tx.queued[i].src in S'.table.sessions[e].tx.slots
                       && S'.table.sessions[e].tx.slots[s.tx.queued[i].src].mid == s.rtc.value.nextMid + i)
  {
    hide Send, Said, Log, AddSlots, AnnounceAll, Fresh;
    var s := S.table.sessions[e];
    var q, mid := s.tx.queued, s.rtc.value.nextMid;
    assert Said(Log(S, e)) + [] == Said(Log(S, e));
    FreshKeepsAll(q, Roster(S, s.callKey), s.tx.slots);
    if q != [] {
      OfferedMids(s);
      hide Offered;
      var S1 := MarkDirty(SetSession(S, e, Offered(s, q)), e);
      var S2 := Send(S1, e, Offer(Mids(mid, |q|)));
      assert Log(S1, e) == Log(S, e) by { Touched(S, S1, e, []); }
      SendSaid(S1, e, Offer(Mids(mid, |q|)));
      var said := Said(Log(S, e));
      assert said + [Offer(Mids(mid, |q|))] + Named(q, mid) == said + ReOffer(q, mid);
      if e in S2.table.sessions { AnnounceSaid(S2, e, q, mid); } else { AnnounceNobody(S2, e, q, mid); }
    }
  }

  // ---- offers and answers ----------------------------------------------------------------------------

  /** Participants with their names. */
  function SourcesOf(S: Srv, ps: seq<Sid>): seq<Source> {
    seq(|ps|, i requires 0 <= i < |ps| => Source(ps[i], NameOf(S, ps[i])))
  }

  lemma {:induction false} ListedAll(S: Srv, ps: seq<Sid>, sid: Sid)
    requires forall p :: p in ps && p != sid ==> p in S.table.sessions
    ensures Listed(S, ps, sid) == SourcesOf(S, Without(ps, sid))
  {
    if ps != [] {
      assert ps == [ps[0]] + ps[1..];
      ListedAll(S, ps[1..], sid);
    }
  }

  /**
   * A good offer: the client hears its answer and then the first re-offer, which has an m-line for each of the others
   * in the call, in roster order, and says whose each is; it has exactly those slots then.
   */
  lemma OfferTells(S: Srv, sid: Sid, pt: Option<nat>)
    requires Inv(S) && sid in S.table.sessions && S.table.sessions[sid].phase.AwaitingOffer?
    ensures S.table.sessions[sid].rtc.Some?
    ensures var S', q := HandleOffer(S, sid, GoodOffer(pt)), SourcesOf(S, Company(S, sid));
            var mid := S.table.sessions[sid].rtc.value.nextMid;
            && ToldOrGone(S, S', sid, [Answer] + ReOffer(q, mid))
            && (sid in S'.table.sessions ==>
                  forall i :: 0 <= i < |q| ==>
                    && q[i].src in S'.table.sessions[sid].tx.slots
                    && S'.table.sessions[sid].tx.slots[q[i].src].mid == mid + i)
  {
    hide Inv, Send, MaybeNegotiate, Listed, Said, Log, ReOffer, Without, VoiceFrames.Company, SourcesOf;
    var s := S.table.sessions[sid];
    HasRtc(S, sid);
    var s1 := s.(opusPt := pt, phase := Steady);
    var S1 := MarkDirty(SetSession(S, sid, s1), sid);
    assert Log(S1, sid) == Log(S, sid) by { Touched(S, S1, sid, []); }
    SendSaid(S1, sid, Answer);
    var S2, said := Send(S1, sid, Answer), Said(Log(S, sid));
    assert said + [] == said;
    if sid in S2.table.sessions {
      AnsweredTells(S, sid, s1, S2);
    } else {
      var others := Listed(S2, Roster(S2, s.callKey), sid);
      assert MaybeNegotiate(S2, sid) == S2 by { NobodyNegotiates(S2, sid); }
    }
  }

  lemma NobodyNegotiates(S: Srv, sid: Sid)
    requires sid !in S.table.sessions
    ensures MaybeNegotiate(S, sid) == S
  {
  }

  /** Once the answer is taken. */
  lemma AnsweredTells(S: Srv, sid: Sid, s1: Session, S2: Srv)
    requires Inv(S) && sid in S.table.sessions && S.table.sessions[sid].phase.AwaitingOffer?
    requires S.table.sessions[sid].rtc.Some? && s1 == S.table.sessions[sid].(opusPt := s1.opusPt, phase := Steady)
    requires S2.table == SetSession(S, sid, s1).table
    requires Said(Log(S2, sid)) == Said(Log(S, sid)) + [Answer]
    ensures var q, mid := SourcesOf(S, Company(S, sid)), S.table.sessions[sid].rtc.value.nextMid;
            var others := Listed(S2, Roster(S2, s1.callKey), sid);
            var S' := MaybeNegotiate(SetSession(S2, sid, SetQueue(s1, others)), sid);
            && ToldOrGone(S, S', sid, [Answer] + ReOffer(q, mid))
            && (sid in S'.table.sessions ==>
                  forall i :: 0 <= i < |q| ==>
                    && q[i].src in S'.table.sessions[sid].tx.slots
                    && S'.table.sessions[sid].tx.slots[q[i].src].mid == mid + i)
  {
    hide Inv, MaybeNegotiate, Listed, Said, Log, ReOffer, Without;
    var roster := Roster(S, s1.callKey);
    Everybody(S, sid);
    ListedAll(S2, roster, sid);
    var q := SourcesOf(S, Company(S, sid));
    assert Listed(S2, roster, sid) == q;
    var S3 := SetSession(S2, sid, SetQueue(s1, q));
    assert Log(S3, sid) == Log(S2, sid) by { Touched(S2, S3, sid, []); }
    NegotiateTells(S3, sid);
    var said := Said(Log(S, sid));
    assert said + [Answer] + ReOffer(q, s1.rtc.value.nextMid) == said + ([Answer] + ReOffer(q, s1.rtc.value.nextMid));
  }

  lemma Everybody(S: Srv, sid: Sid)
    requires Inv(S) && sid in S.table.sessions && S.table.sessions[sid].phase.AwaitingOffer?
    ensures var s := S.table.sessions[sid];
            && s.callKey.Some? && s.callKey.value in S.table.calls && s.tx.slots == map[] && !s.tx.offerPending
            && (forall p :: p in Roster(S, s.callKey) ==> p in S.table.sessions)
            && NoDup(Company(S, sid)) && Distinct(SourcesOf(S, Company(S, sid)))
            && (forall x :: x in SourcesOf(S, Company(S, sid)) ==> x.src in Roster(S, s.callKey) && x.src != sid)
  {
    hide Mesh, NamesOk, LogsOk, SignalingOk, MediaOk, TimersOk, Without;
    var s := S.table.sessions[sid];
    assert Seated(s, sid, S.table.calls, S.past.room) && PhaseOk(s);
    assert CallOk(S.table.sessions, s.callKey.value, S.table.calls[s.callKey.value]);
    SeatOf(S, sid);
    var ps, q := Company(S, sid), SourcesOf(S, Company(S, sid));
    forall x | x in q ensures x.src in Roster(S, s.callKey) && x.src != sid {
      var i :| 0 <= i < |q| && q[i] == x;
      assert ps[i] in ps;
    }
  }

  /** A slot once its offer is answered: declared, with the SSRC the SDP announced for its m-line if there is one. */
  function Declared(slot: TxSlot, streams: set<Mid>): TxSlot {
    if slot.declared then slot
    else TxSlot(slot.mid, if slot.mid in streams then Announced(slot.mid) else slot.ssrc, true)
  }

  lemma {:induction false} DeclareRule(S: Srv, sid: Sid, n: Sid, mids: set<Mid>)
    requires sid in S.table.sessions
    ensures var S' := DeclareBelow(S, sid, n, mids);
            && sid in S'.table.sessions && S'.table.sessions[sid].tx.slots.Keys == S.table.sessions[sid].tx.slots.Keys
            && forall p :: p in S.table.sessions[sid].tx.slots ==>
                 S'.table.sessions[sid].tx.slots[p]
                 == if p < n then Declared(S.table.sessions[sid].tx.slots[p], mids)
                    else S.table.sessions[sid].tx.slots[p]
  {
    if n > 0 { DeclareRule(S, sid, n - 1, mids); }
  }

  /**
   * A good answer: every slot it was about is declared, with the announced SSRC where the client announced one, and the
   * client hears the re-offer for those who came in the meantime.
   */
  lemma AnswerTells(S: Srv, sid: Sid, mids: set<Mid>)
    requires Inv(S) && sid in S.table.sessions
    requires S.table.sessions[sid].phase.Steady? && S.table.sessions[sid].tx.offerPending
    ensures S.table.sessions[sid].rtc.Some?
    ensures var S', s := HandleAnswer(S, sid, GoodAnswer(mids)), S.table.sessions[sid];
            && ToldOrGone(S, S', sid, ReOffer(s.tx.queued, s.rtc.value.nextMid))
            && (sid in S'.table.sessions ==>
                  forall p :: p in s.tx.slots ==>
                    && p in S'.table.sessions[sid].tx.slots
                    && S'.table.sessions[sid].tx.slots[p] == Declared(s.tx.slots[p], mids))
  {
    hide Inv, MaybeNegotiate, DeclareBelow, Said, ReOffer, Declared;
    var s, S1 := S.table.sessions[sid], MarkDirty(Answered(S, sid, mids), sid);
    HasRtc(S, sid);
    AnsweredEffect(S, sid, mids);
    var S0 := SetSession(S, sid, s.(tx := s.tx.(offerPending := false)));
    DeclareRule(CountAnswer(S0, sid), sid, S.loop.nextSid, mids);
    WaitingAreFresh(S, sid);
    assert Log(S1, sid) == Log(S, sid);
    hide Log, Answered;
    NegotiateTells(S1, sid);
  }

  lemma WaitingAreFresh(S: Srv, sid: Sid)
    requires Inv(S) && sid in S.table.sessions
    ensures var s := S.table.sessions[sid];
            && Distinct(s.tx.queued)
            && (forall x :: x in s.tx.queued ==> x.src in Roster(S, s.callKey) && x.src !in s.tx.slots)
            && (forall p :: p in s.tx.slots ==> p < S.loop.nextSid)
  {
    hide NamesOk, LogsOk, SignalingOk, MediaOk, TimersOk, Covers, AtRest, PhaseOk;
    var s := S.table.sessions[sid];
    assert Apart(s, S.table.calls, sid, {}) && Seated(s, sid, S.table.calls, S.past.room);
    forall p | p in s.tx.slots ensures p < S.loop.nextSid {
      assert Peer(s, S.table.calls, sid, p);
      assert CallOk(S.table.sessions, s.callKey.value, S.table.calls[s.callKey.value]);
    }
  }
}
