/** Two concrete runs: one ends with more live calls than the configured ceiling, one with a panic. */
module VoiceWitness {
  import opened Basics
  import opened VoiceTypes
  import opened VoiceSpec
  import opened VoiceMedia
  import opened VoiceLoop
  import opened VoiceTheorems

  function Token(b: byte): seq<byte> { seq(32, i => b) }

  /** Every frame is delivered, every poll is quiet. */
  function Calm(): World { World(b => b, n => true, n => 0, n => Poll(false, false, true, Idle(0))) }

  function One(): Cfg { Cfg(12, 1, 60) }

  const OWNER: seq<byte> := Token(7)

  function Key(b: byte): CallKey { CallKey(OWNER, Token(b)) }

  /** Between inputs, on the calm server with rooms 1 and 2 registered. */
  ghost predicate Resting(S: Srv) {
    && S.env == Env(Calm(), One()) && S.loop.dirty == [] && !S.loop.crashed
    && S.registry.slots == map[Key(1) := SlotInfo(None), Key(2) := SlotInfo(None)]
  }

  lemma Registers()
    ensures var S := Step(Start(Calm(), One()),
                          RegisterSlots(OWNER,
                                        [SlotEntry(Token(1), SlotInfo(None)), SlotEntry(Token(2), SlotInfo(None))]));
            Resting(S) && S.table == Table(map[], map[]) && S.loop.nextSid == 1
  {
    var es := [SlotEntry(Token(1), SlotInfo(None)), SlotEntry(Token(2), SlotInfo(None))];
    assert DropSlots(map[], OWNER) == map[];
    assert es[1..] == [SlotEntry(Token(2), SlotInfo(None))] && es[1..][1..] == [];
    assert InsertSlots(map[], OWNER, es) == InsertSlots(map[Key(1) := SlotInfo(None)], OWNER, es[1..]);
  }

  lemma Opens(S: Srv)
    requires Resting(S)
    ensures var S' := Step(S, OpenSession(OWNER, true));
            && Resting(S') && S'.table == S.table.(sessions := S.table.sessions[S.loop.nextSid := NewSession(OWNER)])
            && S'.loop.nextSid == S.loop.nextSid + 1
  {
  }

  lemma QuietDrain(S: Srv, sid: Sid)
    requires S.env == Env(Calm(), One()) && S.loop.dirty == [sid] && sid in S.table.sessions
    requires S.table.sessions[sid].rtc == Some(NewRtc())
    ensures var S' := DrainReady(S);
            && S'.env == S.env && S'.registry == S.registry && S'.loop == S.loop.(dirty := [], tick := S'.loop.tick)
            && S'.table == Table(S.table.sessions[sid := S.table.sessions[sid].(nextTimeout := Some(0))], S.table.calls)
  {
    var poll := Poll(false, false, true, Idle(0));
    var S1 := DrainSession(Popped(S), sid);
    assert Polled(S.table.sessions[sid], poll) == S.table.sessions[sid].(nextTimeout := Some(0));
    assert S1 == SetSession(Ticked(Popped(S)), sid, Polled(S.table.sessions[sid], poll));
    assert DrainReady(S) == DrainReady(S1);
  }

  /** Seating somebody alone in an empty call. */
  lemma LoneSeat(S: Srv, sid: Sid, key: CallKey)
    requires Resting(S) && sid in S.table.sessions && key in S.table.calls && S.table.calls[key].participants == []
    ensures var S' := Seat(S, sid, key);
            && S'.env == S.env && S'.registry == S.registry && !S'.loop.crashed && S'.loop.dirty == [sid]
            && S'.loop.nextSid == S.loop.nextSid
            && S'.table.sessions == Admit(S, sid, key).table.sessions
            && S'.table.calls == S.table.calls[key := Call(S.table.calls[key].cap, [sid], None)]
  {
    var S1 := Admit(S, sid, key);
    assert S1.table.calls[key].participants == [] + [sid] == [sid];
    assert Listed(S1, [sid], sid) == [];
  }

  /** A calm join into an empty or new call, from the frame to the end of the drain. */
  lemma LoneJoin(S: Srv, sid: Sid, b: byte)
    requires Resting(S) && sid in S.table.sessions && S.table.sessions[sid] == NewSession(OWNER) && (b == 1 || b == 2)
    requires if Key(b) in S.table.calls then S.table.calls[Key(b)].participants == [] && S.table.calls[Key(b)].cap == 12
             else LiveCalls(S.table.calls) == {}
    ensures var S' := Step(S, SessionFrame(sid, Join(Token(b))));
            && Resting(S') && S'.loop.nextSid == S.loop.nextSid
            && S'.table.calls == S.table.calls[Key(b) := Call(12, [sid], None)]
            && S'.table.sessions.Keys == S.table.sessions.Keys
            && (forall t :: t in S.table.sessions && t != sid ==> S'.table.sessions[t] == S.table.sessions[t])
            && S'.table.sessions[sid].callKey == Some(Key(b))
  {
    hide Seat, DrainReady;
    var key := Key(b);
    assert JoinKey(S, sid, Token(b)) == key && JoinError(S, sid, Token(b)).None?;
    var S1 := if key in S.table.calls then S else NewCall(S, key);
    assert S1.table.calls[key].participants == [] && S1.table.calls[key].cap == 12;
    LoneSeat(S1, sid, key);
    var S2 := Seat(S1, sid, key);
    assert HandleJoin(S, sid, Token(b)) == S2;
    assert S2.table.calls == S.table.calls[key := Call(12, [sid], None)];
    QuietDrain(S2, sid);
  }

  /** The last one out leaves the call behind, empty. */
  lemma LoneClose(S: Srv, sid: Sid, key: CallKey)
    requires Resting(S) && sid in S.table.sessions && S.table.sessions[sid].callKey == Some(key)
    requires key in S.table.calls && S.table.calls[key] == Call(12, [sid], None)
    ensures var S' := Step(S, SessionClosed(sid));
            && Resting(S') && S'.loop.nextSid == S.loop.nextSid
            && S'.table == Table(S.table.sessions - {sid}, S.table.calls[key := Call(12, [], Some(0))])
  {
    assert Without([sid], sid) == [];
  }

  const ROOMS: seq<SlotEntry> := [SlotEntry(Token(1), SlotInfo(None)), SlotEntry(Token(2), SlotInfo(None))]

  /** Room 1 is joined and left. */
  function Before(): seq<Input> {
    [RegisterSlots(OWNER, ROOMS), OpenSession(OWNER, true), SessionFrame(1, Join(Token(1))), SessionClosed(1)]
  }

  /** Room 2 is joined; then room 1 is joined again before it is reaped. */
  function After(): seq<Input> {
    [OpenSession(OWNER, true), SessionFrame(2, Join(Token(2))), OpenSession(OWNER, true),
     SessionFrame(3, Join(Token(1)))]
  }

  lemma FourSteps(S: Srv, inputs: seq<Input>)
    requires |inputs| >= 4 && !S.loop.crashed
    requires var S1 := Step(S, inputs[0]); var S2 := Step(S1, inputs[1]); var S3 := Step(S2, inputs[2]);
             !S1.loop.crashed && !S2.loop.crashed && !S3.loop.crashed
    requires forall i :: 0 <= i < 4 ==> !inputs[i].DropOwner? && !inputs[i].PacketIn? && !inputs[i].Time?
    ensures var S4 := Step(Step(Step(Step(S, inputs[0]), inputs[1]), inputs[2]), inputs[3]);
            Run(S, inputs) == Run(S4, inputs[4..]) && (PossibleRun(S4, inputs[4..]) ==> PossibleRun(S, inputs))
  {
    hide Step;
    var r1, r2, r3 := inputs[1..], inputs[2..], inputs[3..];
    assert r1[0] == inputs[1] && r1[1..] == r2 && r2[0] == inputs[2] && r2[1..] == r3 && r3[0] == inputs[3];
    assert r3[1..] == inputs[4..];
    var S1 := Step(S, inputs[0]);
    var S2 := Step(S1, inputs[1]);
    var S3 := Step(S2, inputs[2]);
    assert Run(S, inputs) == Run(S1, r1) == Run(S2, r2) == Run(S3, r3);
    assert Possible(S, inputs[0]) && Possible(S1, inputs[1]) && Possible(S2, inputs[2]) && Possible(S3, inputs[3]);
    assert PossibleRun(S3, r3) == PossibleRun(Step(S3, inputs[3]), inputs[4..]);
    assert PossibleRun(S2, r2) == PossibleRun(S3, r3);
    assert PossibleRun(S1, r1) == PossibleRun(S2, r2);
  }

  lemma FirstHalf() returns (S: Srv)
    ensures forall rest :: Run(Start(Calm(), One()), Before() + rest) == Run(S, rest)
    ensures forall rest :: PossibleRun(S, rest) ==> PossibleRun(Start(Calm(), One()), Before() + rest)
    ensures Resting(S) && S.loop.nextSid == 2 && S.table == Table(map[], map[Key(1) := Call(12, [], Some(0))])
  {
    hide Step, Run, PossibleRun;
    var S0 := Start(Calm(), One());
    Registers();
    var S1 := Step(S0, Before()[0]);
    Opens(S1);
    var S2 := Step(S1, Before()[1]);
    LoneJoin(S2, 1, 1);
    var S3 := Step(S2, Before()[2]);
    LoneClose(S3, 1, Key(1));
    S := Step(S3, Before()[3]);
    forall rest
      ensures Run(S0, Before() + rest) == Run(S, rest) && (PossibleRun(S, rest) ==> PossibleRun(S0, Before() + rest))
    {
      FourSteps(S0, Before() + rest);
      assert (Before() + rest)[4..] == rest;
    }
  }

  lemma SecondHalf(S: Srv)
    requires Resting(S) && S.loop.nextSid == 2 && S.table == Table(map[], map[Key(1) := Call(12, [], Some(0))])
    ensures var S' := Run(S, After());
            && PossibleRun(S, After()) && Resting(S')
            && S'.table.calls == map[Key(1) := Call(12, [3], None), Key(2) := Call(12, [2], None)]
  {
    hide Step;
    assert Token(1)[0] != Token(2)[0];
    Opens(S);
    var S5 := Step(S, After()[0]);
    LoneJoin(S5, 2, 2);
    var S6 := Step(S5, After()[1]);
    Opens(S6);
    var S7 := Step(S6, After()[2]);
    LoneJoin(S7, 3, 1);
    FourSteps(S, After());
    assert After()[4..] == [];
  }

  /** `max_concurrent_calls` is one, and the run ends with two live calls. */
  lemma CeilingCanBreak()
    ensures var S := Run(Start(Calm(), One()), Before() + After());
            && Reachable(S) && LiveCalls(S.table.calls) == {Key(1), Key(2)}
            && |LiveCalls(S.table.calls)| == 2 > S.env.cfg.maxConcurrentCalls
  {
    hide Run, PossibleRun;
    var S := FirstHalf();
    SecondHalf(S);
    var S' := Run(Start(Calm(), One()), Before() + After());
    assert S' == Run(S, After());
    assert Token(1)[0] != Token(2)[0];
    assert LiveCalls(S'.table.calls) == {Key(1), Key(2)};
  }

  // ---- the panic ------------------------------------------------------------------

  /** As calm, except that no frame is ever delivered. */
  function Deaf(): World { Calm().(delivers := n => false) }

  const ROOM: SlotEntry := SlotEntry(Token(1), SlotInfo(None))

  /** The first member of a room joins, its channel refuses the acknowledgement, and the loop is down. */
  lemma LostAckPanics()
    ensures var S := Run(Start(Deaf(), One()), [RegisterSlots(OWNER, [ROOM]), OpenSession(OWNER, true)]);
            Reachable(S) && Step(S, SessionFrame(1, Join(Token(1)))).loop.crashed
  {
    var S0 := Start(Deaf(), One());
    var inputs := [RegisterSlots(OWNER, [ROOM]), OpenSession(OWNER, true)];
    var S1 := Step(S0, inputs[0]);
    assert InsertSlots(map[], OWNER, [ROOM]) == map[Key(1) := SlotInfo(None)];
    assert DropSlots(map[], OWNER) == map[];
    var S2 := Step(S1, inputs[1]);
    assert inputs[1..][0] == inputs[1] && inputs[1..][1..] == [];
    assert Run(S0, inputs) == Run(S1, inputs[1..]) == S2;
    assert PossibleRun(S1, inputs[1..]);
    assert PossibleRun(S0, inputs);
    assert LiveCalls(S2.table.calls) == {};
    PanicsOnlyOnLostAck(S2, SessionFrame(1, Join(Token(1))));
  }
}
