/**
 * Every packet that reaches a session's `Rtc` is handed on for forwarding once, in order, or is still waiting there.
 */
module VoiceArrivals {
  import opened Basics
  import opened VoiceTypes
  import opened VoiceSpec
  import opened VoiceInvariant
  import opened VoiceMedia
  import opened VoiceLoop
  import opened VoiceStill
  import opened VoiceDealt
  import opened VoiceHistory

  /** Conservation of packets, for sessions that are here and for those that have left. */
  ghost predicate Arrivals(S: Srv) {
    && S.past.arrived.Keys == S.past.heard.Keys
    && (forall t :: t in S.past.heard ==> S.past.heard[t] <= S.past.arrived[t])
    && (forall t :: t in S.table.sessions ==>
          t in S.past.heard && S.past.arrived[t] == S.past.heard[t] + Inbound(S.table.sessions[t]))
  }

  // ---- draining moves packets from waiting to handed on ------------------------------

  lemma {:induction false} FanOutHeard(S: Srv, targets: seq<Sid>, src: Sid, p: Packet)
    ensures var S' := FanOut(S, targets, src, p);
            S'.past.heard == S.past.heard && S'.past.arrived == S.past.arrived && S'.table == S.table
    decreases |targets|
  {
    if targets != [] { FanOutHeard(ForwardTo(S, targets[0], src, p), targets[1..], src, p); }
  }

  lemma {:induction false} ForwardAllHeard(S: Srv, src: Sid, ps: seq<Packet>)
    requires src in S.table.sessions && S.table.sessions[src].callKey.Some?
    requires S.table.sessions[src].callKey.value in S.table.calls
    requires src in S.past.heard
    ensures var S' := ForwardAll(S, src, ps);
            && S'.past.heard == S.past.heard[src := S.past.heard[src] + ps] && S'.past.arrived == S.past.arrived
            && S'.table == S.table
    decreases |ps|
  {
    hide FanOut, Without;
    if ps == [] {
      assert S.past.heard[src] + ps == S.past.heard[src];
    } else {
      var S1 := S.(past := S.past.(heard := S.past.heard[src := HeardFrom(S, src) + [ps[0]]]));
      FanOutHeard(S1, Without(Roster(S, S.table.sessions[src].callKey), src), src, ps[0]);
      ForwardAllHeard(ForwardRtp(S, src, ps[0]), src, ps[1..]);
      assert S.past.heard[src] + [ps[0]] + ps[1..] == S.past.heard[src] + ps;
    }
  }

  lemma UnmovedArrivals(S: Srv, S': Srv)
    requires Arrivals(S) && Unmoved(S, S')
    ensures Arrivals(S')
  {
  }

  lemma DrainArrivals(S: Srv, sid: Sid)
    requires Standing(S, {}, {}) && Arrivals(S)
    ensures Arrivals(DrainSession(S, sid))
  {
    hide Rosters, Mesh, NamesOk, LogsOk, SignalingOk, MediaOk, CloseSession, ForwardAll, Onward;
    if sid in S.table.sessions && S.table.sessions[sid].rtc.Some? {
      var poll := S.env.w.poll(S.loop.tick);
      var inbound := S.table.sessions[sid].rtc.value.inbound;
      var n := Taken(poll, inbound);
      var S1 := SetSession(Ticked(S), sid, Polled(S.table.sessions[sid], poll));
      RecordAt(S, sid);
      RosterNoDup(S, sid);
      ForwardAllHeard(S1, sid, inbound[..n]);
      var S2 := ForwardAll(S1, sid, inbound[..n]);
      assert inbound == inbound[..n] + inbound[n..];
      assert S.past.heard[sid] + inbound == S.past.heard[sid] + inbound[..n] + inbound[n..];
      CloseStill(S2, sid, None);
      if Closes(poll) { UnmovedArrivals(S2, CloseSession(S2, sid, None)); }
    }
  }

  lemma {:induction false} DrainReadyArrivals(S: Srv)
    requires Inv(S) && Arrivals(S)
    ensures Arrivals(DrainReady(S))
    decreases Backlog(S.table.sessions), |S.loop.dirty|
  {
    hide Rosters, Mesh, NamesOk, LogsOk, SignalingOk, MediaOk, DrainSession;
    if S.loop.dirty != [] {
      DrainProgress(S);
      assert forall t :: t in S.loop.dirty <==> t == S.loop.dirty[0] || t in S.loop.dirty[1..];
      DrainSessionKeeps(Popped(S), S.loop.dirty[0]);
      DrainArrivals(Popped(S), S.loop.dirty[0]);
      DrainReadyArrivals(DrainSession(Popped(S), S.loop.dirty[0]));
    }
  }

  lemma StepArrivals(S: Srv, input: Input)
    requires Inv(S) && !S.loop.crashed && Possible(S, input) && Arrivals(S)
    ensures !Step(S, input).loop.crashed ==> Arrivals(Step(S, input))
  {
    hide Inv, DispatchFrame, DrainReady, CloseSession, HandleDrop, TimeOutEach, HandlePacket, InsertSlots, DropSlots;
    hide Dealt, Onward;
    match input
    case RegisterSlots(owner, entries) =>
    case DropOwner(owner, order) => DropArrivals(S, owner, order);
    case OpenSession(owner, callerWaits) => assert S.loop.nextSid !in S.table.sessions by { NextIsFree(S); }
    case SessionFrame(sid, frame) =>
      if sid in S.table.sessions {
        DispatchDealt(S, sid, frame);
        DispatchKeeps(S, sid, frame);
        var S1 := DispatchFrame(S, sid, frame);
        UnmovedArrivals(S, S1);
        if !S1.loop.crashed { DrainReadyArrivals(S1); }
      }
    case SessionClosed(sid) => CloseStill(S, sid, None); UnmovedArrivals(S, Step(S, input));
    case PacketIn(route, events) => PacketArrivals(S, route, events);
    case Time(now, due, failing) =>
      TimeOutEachStill(S, due, failing);
      TimeOutEachKeeps(S, due, failing);
      UnmovedArrivals(S, TimeOutEach(S, due, failing));
      DrainReadyArrivals(TimeOutEach(S, due, failing));
  }

  lemma DropArrivals(S: Srv, owner: seq<byte>, order: seq<Sid>)
    requires Arrivals(S)
    ensures Arrivals(HandleDrop(S, owner, order))
  {
    hide CloseEach, DropSlots, Onward;
    var S0 := S.(registry := Registry(DropSlots(S.registry.slots, owner)));
    CloseEachStill(S0, order, Some(Bye));
    UnmovedArrivals(S0, CloseEach(S0, order, Some(Bye)));
  }

  lemma PacketArrivals(S: Srv, route: Option<Sid>, events: Option<seq<Packet>>)
    requires Arrivals(S) && Possible(S, PacketIn(route, events))
    ensures Arrivals(HandlePacket(S, route, events))
  {
    hide CloseSession, Onward;
    if route.Some? {
      var sid := route.value;
      CloseStill(S, sid, None);
      if events.Some? {
        var ps := events.value;
        assert S.past.heard[sid] + Inbound(S.table.sessions[sid]) + ps
               == S.past.heard[sid] + (Inbound(S.table.sessions[sid]) + ps);
      }
    }
  }

  lemma {:induction false} RunArrivals(S: Srv, inputs: seq<Input>)
    requires Inv(S) && !S.loop.crashed && PossibleRun(S, inputs) && Arrivals(S)
    ensures !Run(S, inputs).loop.crashed ==> Arrivals(Run(S, inputs))
    decreases |inputs|
  {
    hide Inv, Step, Possible, Arrivals;
    if inputs != [] {
      StepKeeps(S, inputs[0]);
      StepArrivals(S, inputs[0]);
      var S1 := Step(S, inputs[0]);
      if !S1.loop.crashed { RunArrivals(S1, inputs[1..]); }
    }
  }

  // ---- packets come from datagrams ----------------------------------------------------------

  /** The packets a run of inputs brings for `t`, in order. */
  function Fed(inputs: seq<Input>, t: Sid): seq<Packet> {
    if inputs == [] then [] else FedBy(inputs[0], t) + Fed(inputs[1..], t)
  }

  lemma NextArrived(S: Srv, input: Input)
    requires Inv(S) && !S.loop.crashed && Possible(S, input) && Arrivals(S)
    requires !Step(S, input).loop.crashed && Arrivals(Step(S, input)) && Inv(Step(S, input))
    ensures var t := S.loop.nextSid;
            ArrivedAt(S, t) == [] && FedBy(input, t) == [] && ArrivedAt(Step(S, input), t) == []
  {
    hide Inv, HandleFrame, HandleDrop, HandleTime, CloseSession, SlotsAfter, ArrivedAfter, InsertSlots, DropSlots;
    NextIsFree(S);
    NextUnheard(S);
    StepRest(S, input);
    if !input.OpenSession? { NextUnheard(Step(S, input)); }
  }

  lemma NextUnheard(S: Srv)
    requires Inv(S)
    ensures S.loop.nextSid !in S.past.heard
  {
    hide Rosters, Mesh, NamesOk, LogsOk, SignalingOk, TimersOk, StreamLive, StreamPast, SlotOk, SlotsDistinct;
  }

  /** What has arrived at a session is what the inputs brought for it: nothing is made up and nothing lost before. */
  lemma {:induction false} ArrivedIsFed(S: Srv, inputs: seq<Input>, t: Sid)
    requires Inv(S) && !S.loop.crashed && PossibleRun(S, inputs) && Arrivals(S) && !Run(S, inputs).loop.crashed
    ensures ArrivedAt(Run(S, inputs), t) == ArrivedAt(S, t) + Fed(inputs, t)
    decreases |inputs|
  {
    hide Inv, Step, Possible, Arrivals, SlotsAfter, ArrivedAt;
    if inputs != [] {
      var S1 := Step(S, inputs[0]);
      StepKeeps(S, inputs[0]);
      StepArrivals(S, inputs[0]);
      StepRest(S, inputs[0]);
      if t == S.loop.nextSid { NextArrived(S, inputs[0]); }
      ArrivedIsFed(S1, inputs[1..], t);
    }
  }

  // ---- packets wait only where somebody will look ----------------------------------------------

  lemma UnmovedMarked(S: Srv, S': Srv)
    requires Marked(S) && Unmoved(S, S') && S.loop.dirty <= S'.loop.dirty
    ensures Marked(S')
  {
  }

  lemma StepMarked(S: Srv, input: Input)
    requires Inv(S) && !S.loop.crashed && Possible(S, input) && Marked(S)
    ensures Marked(Step(S, input))
    ensures input.Time? ==> Step(S, input).loop.dirty == []
  {
    hide Inv, DispatchFrame, DrainReady, CloseSession, CloseEach, TimeOutEach, InsertSlots, DropSlots, Onward, Dealt;
    hide Drains;
    match input
    case RegisterSlots(owner, entries) =>
    case DropOwner(owner, order) =>
      var S0 := S.(registry := Registry(DropSlots(S.registry.slots, owner)));
      CloseEachStill(S0, order, Some(Bye));
      UnmovedMarked(S0, CloseEach(S0, order, Some(Bye)));
    case OpenSession(owner, callerWaits) =>
    case SessionFrame(sid, frame) =>
      if sid in S.table.sessions {
        DispatchDealt(S, sid, frame);
        UnmovedMarked(S, DispatchFrame(S, sid, frame));
        DrainReadyDrains(DispatchFrame(S, sid, frame));
      }
    case SessionClosed(sid) => CloseStill(S, sid, None); UnmovedMarked(S, CloseSession(S, sid, None));
    case PacketIn(route, events) => if route.Some? { PacketMarked(S, route.value, events); }
    case Time(now, due, failing) =>
      TimeOutEachStill(S, due, failing);
      UnmovedMarked(S, TimeOutEach(S, due, failing));
      DrainReadyDrains(TimeOutEach(S, due, failing));
  }

  lemma PacketMarked(S: Srv, sid: Sid, events: Option<seq<Packet>>)
    requires Marked(S) && sid in S.table.sessions && S.table.sessions[sid].rtc.Some?
    ensures Marked(HandlePacket(S, Some(sid), events))
  {
    hide CloseSession, Onward;
    CloseStill(S, sid, None);
  }

  lemma {:induction false} RunMarked(S: Srv, inputs: seq<Input>)
    requires Inv(S) && !S.loop.crashed && PossibleRun(S, inputs) && Marked(S)
    ensures Marked(Run(S, inputs))
    decreases |inputs|
  {
    hide Inv, Step, Possible, Marked;
    if inputs != [] {
      StepKeeps(S, inputs[0]);
      StepMarked(S, inputs[0]);
      var S1 := Step(S, inputs[0]);
      if !S1.loop.crashed { RunMarked(S1, inputs[1..]); }
    }
  }
}
