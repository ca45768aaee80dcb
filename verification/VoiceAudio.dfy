/** From a client's offer to the packets it hears, over whole runs. */
module VoiceAudio {
  import opened Basics
  import opened VoiceTypes
  import opened VoiceSpec
  import opened VoiceInvariant
  import opened VoiceMedia
  import opened VoiceLoop
  import opened VoiceStill
  import opened VoiceDealt
  import opened VoiceHistory
  import opened VoiceArrivals
  import opened VoiceTheorems

  /**
   * A good offer from a session that was to make one: it is Steady with the payload type it offered, if it is still
   * here, and it is here unless a frame is refused or a poll ends a session. Nobody else's payload type changes.
   */
  lemma OfferIsTaken(S: Srv, sid: Sid, pt: Option<nat>)
    requires Reachable(S) && sid in S.table.sessions && S.table.sessions[sid].phase.AwaitingOffer?
    ensures var S' := Step(S, SessionFrame(sid, ClientOffer(GoodOffer(pt))));
            && (sid in S'.table.sessions ==>
                  S'.table.sessions[sid].phase.Steady? && S'.table.sessions[sid].opusPt == pt)
            && (Calm(S, S') ==> S'.table.sessions.Keys == S.table.sessions.Keys)
            && (forall t :: t in S'.table.sessions && t != sid ==>
                  t in S.table.sessions && S'.table.sessions[t].opusPt == S.table.sessions[t].opusPt)
  {
    hide Reachable, Inv, Step, CallsAfter, Grows;
    var input := SessionFrame(sid, ClientOffer(GoodOffer(pt)));
    var S' := Step(S, input);
    assert !S.loop.crashed by { ReachableUp(S); }
    ReachableInv(S);
    StepAfter(S, input);
    forall t | t in S'.table.sessions ensures WhoIs(S'.table.sessions[t]) == NextWho(S, input, t) {
      assert t in S.table.sessions;
    }
  }

  /** In every reachable state a session has the payload type of the offer it made on the way there, and no other. */
  lemma PtWasOffered(w: World, cfg: Cfg, inputs: seq<Input>, t: Sid)
    requires PossibleRun(Start(w, cfg), inputs) && t in Run(Start(w, cfg), inputs).table.sessions
    ensures Run(Start(w, cfg), inputs).table.sessions[t].opusPt == OfferedPt(Start(w, cfg), inputs, t, None)
  {
    hide Inv, Run, PossibleRun, OfferedPt;
    StartKeeps(w, cfg);
    PtIsTheOffered(Start(w, cfg), inputs, t);
  }

  /** `src` has a declared slot at `t`, and `t` speaks Opus. */
  predicate Listens(S: Srv, t: Sid, src: Sid) {
    && t in S.table.sessions && src in S.table.sessions && src in S.table.sessions[t].tx.slots
    && S.table.sessions[t].tx.slots[src].declared && S.table.sessions[t].opusPt.Some?
  }

  /**
   * Audio arrives: from a reachable state in which `t` listens to `src`, over any inputs, as long as both are here,
   * `t`'s stream for `src` gets what was waiting at `src` and then every packet the inputs brought for `src`, in order
   * and nothing else, once the work list is drained.
   */
  lemma AudioArrives(S: Srv, inputs: seq<Input>, t: Sid, src: Sid)
    requires Reachable(S) && Listens(S, t, src) && PossibleRun(S, inputs)
    requires var S' := Run(S, inputs);
             !S'.loop.crashed && t in S'.table.sessions && src in S'.table.sessions && S'.loop.dirty == []
    ensures var k, S' := StreamKey(t, S.table.sessions[t].tx.slots[src].ssrc), Run(S, inputs);
            && k in S.past.streams && k in S'.past.streams
            && S'.past.streams[k].log
               == S.past.streams[k].log + Inbound(S.table.sessions[src]) + Fed(inputs, src)
  {
    hide Reachable, Inv, Run, PossibleRun, OfferedPt, Arrivals, Marked, Fed, ArrivedAt;
    var k, S' := StreamKey(t, S.table.sessions[t].tx.slots[src].ssrc), Run(S, inputs);
    ReachableUp(S);
    ReachableInv(S);
    SlotHasStream(S, t, src);
    RunKeepsFrom(S, inputs);
    RunArrivals(S, inputs);
    RunMarked(S, inputs);
    StreamsOnlyGrow(S, inputs);
    SlotsMeanSteady(S, t, src);
    PtStays(S, inputs, t);
    ArrivedIsFed(S, inputs, src);
    Drained(S');
    CarriesAt(S, k);
    CarriesAt(S', k);
    HeardAt(S, src);
    HeardAt(S', src);
    Suffixes(S.past.heard[src], Inbound(S.table.sessions[src]), Fed(inputs, src), S'.past.heard[src],
             S.past.streams[k].start);
  }

  lemma Suffixes(h: seq<Packet>, i: seq<Packet>, f: seq<Packet>, h': seq<Packet>, start: nat)
    requires start <= |h| && h' == h + i + f
    ensures start <= |h'| && h'[start..] == h[start..] + i + f
  {
  }

  lemma Drained(S: Srv)
    requires Marked(S) && S.loop.dirty == []
    ensures forall t :: t in S.table.sessions ==> Inbound(S.table.sessions[t]) == []
  {
  }

  lemma SlotsMeanSteady(S: Srv, t: Sid, src: Sid)
    requires Inv(S) && t in S.table.sessions && src in S.table.sessions[t].tx.slots
    ensures S.table.sessions[t].phase.Steady?
  {
    hide Mesh, NamesOk, LogsOk, SignalingOk, MediaOk, TimersOk, CallOk, Seated;
    assert PhaseOk(S.table.sessions[t]);
  }

  lemma HeardAt(S: Srv, t: Sid)
    requires Arrivals(S) && t in S.table.sessions
    ensures t in S.past.heard && ArrivedAt(S, t) == S.past.heard[t] + Inbound(S.table.sessions[t])
  {
  }

  lemma CarriesAt(S: Srv, k: StreamKey)
    requires Inv(S) && k in S.past.streams && k.target in S.table.sessions
    ensures Carries(S.past.streams[k], S.table.sessions[k.target], S.past.heard)
  {
    hide Rosters, Mesh, NamesOk, LogsOk, SignalingOk, TimersOk, StreamPast, SlotOk, SlotsDistinct, Carries;
    assert StreamLive(k, S.past.streams[k], S.table.sessions, S.past.heard);
  }

  /** Somebody who has made an offer does not make another. */
  lemma {:induction false} PtStays(S: Srv, inputs: seq<Input>, t: Sid)
    requires Inv(S) && !S.loop.crashed && PossibleRun(S, inputs) && t in S.table.sessions
    requires !S.table.sessions[t].phase.AwaitingJoin? && !S.table.sessions[t].phase.AwaitingOffer?
    requires t in Run(S, inputs).table.sessions
    ensures WhoIs(Run(S, inputs).table.sessions[t]) == WhoIs(S.table.sessions[t])
    decreases |inputs|
  {
    hide Inv, Step, Possible, CallsAfter, NobodyElseLost, Dismissed, Grows, SlotsAfter, ArrivedAfter;
    if inputs != [] {
      var S1 := Step(S, inputs[0]);
      StepKeeps(S, inputs[0]);
      StepAfter(S, inputs[0]);
      StepRest(S, inputs[0]);
      if !S1.loop.crashed {
        if t !in S1.table.sessions {
          Numbered(S, t);
          GoneForGood(S1, inputs[1..], t);
        }
        NotLetIn(S, inputs[0], t);
        PtStays(S1, inputs[1..], t);
      }
    }
  }

  lemma NotLetIn(S: Srv, input: Input, t: Sid)
    requires t in S.table.sessions && !S.table.sessions[t].phase.AwaitingJoin?
    ensures LetIn(S, input) ==> input.sid != t
  {
  }

  /**
   * From the offer on: `t` makes its offer with Opus in it, some inputs later it has answered for `src`, and from then
   * on every packet that datagrams bring for `src` is written to `t`.
   */
  lemma OfferedHear(S: Srv, t: Sid, pt: nat, before: seq<Input>, after: seq<Input>, src: Sid)
    requires Reachable(S) && t in S.table.sessions && S.table.sessions[t].phase.AwaitingOffer?
    requires var S1 := Step(S, SessionFrame(t, ClientOffer(GoodOffer(Some(pt)))));
             var S2 := Run(S1, before);
             && t in S1.table.sessions && !S1.loop.crashed && PossibleRun(S1, before) && !S2.loop.crashed
             && t in S2.table.sessions && src in S2.table.sessions && src in S2.table.sessions[t].tx.slots
             && S2.table.sessions[t].tx.slots[src].declared && PossibleRun(S2, after)
             && var S3 := Run(S2, after);
                !S3.loop.crashed && t in S3.table.sessions && src in S3.table.sessions && S3.loop.dirty == []
    ensures var S2 := Run(Step(S, SessionFrame(t, ClientOffer(GoodOffer(Some(pt))))), before);
            var k, S3 := StreamKey(t, S2.table.sessions[t].tx.slots[src].ssrc), Run(S2, after);
            && k in S2.past.streams && k in S3.past.streams
            && S3.past.streams[k].log
               == S2.past.streams[k].log + Inbound(S2.table.sessions[src]) + Fed(after, src)
  {
    hide Reachable, Inv, Run, PossibleRun, Step, Fed;
    var input := SessionFrame(t, ClientOffer(GoodOffer(Some(pt))));
    var S1 := Step(S, input);
    ReachableUp(S);
    ReachableInv(S);
    OfferIsTaken(S, t, Some(pt));
    StepKeeps(S, input);
    PtStays(S1, before, t);
    ReachableStep(S, input);
    ReachableRun(S1, before);
    AudioArrives(Run(S1, before), after, t, src);
  }
}
