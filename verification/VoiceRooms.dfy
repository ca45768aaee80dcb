/** How many a room holds, and for how long. */
module VoiceRooms {
  import opened Basics
  import opened VoiceTypes
  import opened VoiceSpec
  import opened VoiceInvariant
  import opened VoiceJoin
  import opened VoiceLoop
  import opened VoiceStill
  import opened VoiceDealt
  import opened VoiceHistory
  import opened VoiceTheorems

  /** How many a room holds: its slot's wish between two and the relay's maximum. */
  function RoomFor(wish: Option<nat>, relayMax: nat): nat {
    if relayMax < 2 then 2
    else if wish.None? || wish.value > relayMax then relayMax
    else if wish.value < 2 then 2
    else wish.value
  }

  /** The first join to a room makes its call with the room's own limit. */
  lemma FirstJoinSetsCap(S: Srv, sid: Sid, token: seq<byte>)
    requires Reachable(S) && LetIn(S, SessionFrame(sid, Join(token))) && RoomOf(S, sid, token) !in S.table.calls
    ensures var room, S' := RoomOf(S, sid, token), Step(S, SessionFrame(sid, Join(token)));
            && room in S.registry.slots && room in S'.table.calls
            && S'.table.calls[room].cap == RoomFor(S.registry.slots[room].maxParticipants, S.env.cfg.maxParticipants)
  {
    hide Reachable, Inv, Step, SessionsAfter, NobodyElseLost, Grows, Admitted;
    ReachableUp(S);
    ReachableInv(S);
    StepAfter(S, SessionFrame(sid, Join(token)));
  }

  /** What a join has to meet, besides room in a call that is already there. */
  predicate Welcome(S: Srv, sid: Sid, token: seq<byte>)
    requires sid in S.table.sessions
  {
    S.table.sessions[sid].phase.AwaitingJoin? && |token| == 32 && RoomOf(S, sid, token) in S.registry.slots
  }

  /**
   * A room is full exactly when as many are seated as its slot wished when the call was made: after the first join and
   * any inputs during which the call stays, the next join is let in exactly when there are fewer.
   */
  lemma FullExactly(S: Srv, first: Sid, token: seq<byte>, inputs: seq<Input>, sid: Sid, again: seq<byte>)
    requires Reachable(S) && LetIn(S, SessionFrame(first, Join(token))) && RoomOf(S, first, token) !in S.table.calls
    requires var S1 := Step(S, SessionFrame(first, Join(token)));
             && !S1.loop.crashed && PossibleRun(S1, inputs) && StaysOpen(S1, inputs, RoomOf(S, first, token))
             && var S2 := Run(S1, inputs);
                sid in S2.table.sessions && Welcome(S2, sid, again) && RoomOf(S2, sid, again) == RoomOf(S, first, token)
    ensures var room, S2 := RoomOf(S, first, token), Run(Step(S, SessionFrame(first, Join(token))), inputs);
            && room in S.registry.slots && room in S2.table.calls
            && (Admitted(S2, sid, again) <==>
                  |S2.table.calls[room].participants|
                  < RoomFor(S.registry.slots[room].maxParticipants, S.env.cfg.maxParticipants))
  {
    hide Reachable, Inv, Step, Run, PossibleRun;
    var input, room := SessionFrame(first, Join(token)), RoomOf(S, first, token);
    ReachableUp(S);
    ReachableInv(S);
    StepKeeps(S, input);
    FirstJoinSetsCap(S, first, token);
    CapStays(Step(S, input), inputs, room);
  }
}
