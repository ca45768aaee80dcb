/** What the event loop promises, read off every reachable state. */
module VoiceTheorems {
  import opened Basics
  import opened VoiceTypes
  import opened VoiceSpec
  import opened VoiceInvariant
  import opened VoiceClose
  import opened VoiceNegotiate
  import opened VoiceJoin
  import opened VoiceMedia
  import opened VoiceLoop
  import opened VoiceStill
  import opened VoiceDealt
  import opened VoiceHistory
  import opened VoiceArrivals

  /** A state the loop can be in between two inputs. */
  ghost predicate Reachable(S: Srv) {
    exists w, cfg, inputs :: PossibleRun(Start(w, cfg), inputs) && S == Run(Start(w, cfg), inputs) && !S.loop.crashed
  }

  lemma ReachableInv(S: Srv)
    requires Reachable(S)
    ensures Inv(S) && Arrivals(S) && Marked(S)
  {
    hide Inv, Run, PossibleRun;
    var w, cfg, inputs :| PossibleRun(Start(w, cfg), inputs) && S == Run(Start(w, cfg), inputs) && !S.loop.crashed;
    RunKeeps(w, cfg, inputs);
    StartKeeps(w, cfg);
    RunArrivals(Start(w, cfg), inputs);
    RunMarked(Start(w, cfg), inputs);
  }

  lemma ReachableUp(S: Srv)
    requires Reachable(S)
    ensures !S.loop.crashed
  {
  }

  lemma {:induction false} RunsJoin(S: Srv, a: seq<Input>, b: seq<Input>)
    requires PossibleRun(S, a) && PossibleRun(Run(S, a), b) && !Run(S, a).loop.crashed
    ensures PossibleRun(S, a + b) && Run(S, a + b) == Run(Run(S, a), b)
    decreases |a|
  {
    hide Step, Possible;
    if a == [] || S.loop.crashed {
      assert a == [] ==> a + b == b;
    } else {
      RunsJoin(Step(S, a[0]), a[1..], b);
      assert (a + b)[1..] == a[1..] + b;
    }
  }

  /** What can be reached from a reachable state is reachable. */
  lemma ReachableRun(S: Srv, inputs: seq<Input>)
    requires Reachable(S) && PossibleRun(S, inputs) && !Run(S, inputs).loop.crashed
    ensures Reachable(Run(S, inputs))
  {
    hide Run, PossibleRun;
    var w, cfg, before :| PossibleRun(Start(w, cfg), before) && S == Run(Start(w, cfg), before) && !S.loop.crashed;
    RunsJoin(Start(w, cfg), before, inputs);
  }

  lemma ReachableStep(S: Srv, input: Input)
    requires Reachable(S) && Possible(S, input) && !Step(S, input).loop.crashed
    ensures Reachable(Step(S, input))
  {
    hide Step, Possible;
    assert !S.loop.crashed;
    assert [input][1..] == [] && Run(S, [input]) == Run(Step(S, input), []) == Step(S, input);
    assert PossibleRun(S, [input]);
    ReachableRun(S, [input]);
  }

  function Others(S: Srv, t: Sid): set<Sid>
    requires t in S.table.sessions
  {
    set p | p in Roster(S, S.table.sessions[t].callKey) && p != t
  }

  function QueuedSet(s: Session): set<Sid> { set e | e in s.tx.queued :: e.src }

  /**
   * Full mesh: a Steady session's slots and queue, without overlap or repetition, are together exactly the other
   * participants of its call; with no offer in flight the queue is empty and every slot is declared.
   */
  lemma FullMesh(S: Srv, t: Sid)
    requires Reachable(S) && t in S.table.sessions && S.table.sessions[t].phase.Steady?
    ensures var s := S.table.sessions[t];
            && s.tx.slots.Keys + QueuedSet(s) == Others(S, t)
            && s.tx.slots.Keys !! QueuedSet(s) && Distinct(s.tx.queued)
            && (!s.tx.offerPending ==> s.tx.queued == [] && forall p :: p in s.tx.slots ==> s.tx.slots[p].declared)
  {
    hide Reachable, NamesOk, LogsOk, SignalingOk, MediaOk, TimersOk, CallOk;
    ReachableInv(S);
    var s := S.table.sessions[t];
    assert Apart(s, S.table.calls, t, {}) && Covers(s, S.table.calls, t, {}) && AtRest(s, false);
    assert Seated(s, t, S.table.calls, S.past.room) && PhaseOk(s);
    forall p | p in Others(S, t) ensures p in s.tx.slots.Keys + QueuedSet(s) {
      assert Peer(s, S.table.calls, t, p);
      if Queues(s, p) { var e :| e in s.tx.queued && e.src == p; assert e.src in QueuedSet(s); }
    }
  }

  /**
   * Roster agreement: a session is on a roster exactly when it names that call, and then once; rosters stay within
   * their cap; sessions waiting to join hold neither call nor `Rtc`, all others hold both.
   */
  lemma RosterAgreement(S: Srv)
    requires Reachable(S)
    ensures forall k, t :: k in S.table.calls ==>
              (t in S.table.calls[k].participants <==> t in S.table.sessions && S.table.sessions[t].callKey == Some(k))
    ensures forall k :: k in S.table.calls ==>
              NoDup(S.table.calls[k].participants) && |S.table.calls[k].participants| <= S.table.calls[k].cap
    ensures forall t :: t in S.table.sessions && S.table.sessions[t].callKey.Some? ==>
              S.table.sessions[t].callKey.value in S.table.calls
    ensures forall t :: t in S.table.sessions ==>
              && (S.table.sessions[t].phase.AwaitingJoin? <==> S.table.sessions[t].rtc.None?)
              && (S.table.sessions[t].phase.AwaitingJoin? <==> S.table.sessions[t].callKey.None?)
  {
    hide Reachable, Mesh, NamesOk, LogsOk, SignalingOk, MediaOk, TimersOk;
    ReachableInv(S);
    var ss, cs := S.table.sessions, S.table.calls;
    forall t | t in ss
      ensures Seated(ss[t], t, cs, S.past.room) && PhaseOk(ss[t])
    {
    }
  }

  /**
   * Forwarding: whatever was ever written to one outbound stream is an unbroken, in-order, unmodified stretch of the
   * packets that arrived from one source, beginning where the slot was declared. While the target is here and speaks
   * Opus the stretch reaches to the last packet taken from the source's `Rtc`, so it ends only when source or target
   * closes. Both were admitted to the same call.
   */
  lemma Forwarding(S: Srv, k: StreamKey)
    requires Reachable(S) && k in S.past.streams
    ensures var st := S.past.streams[k];
            && st.source in S.past.heard && st.source in S.past.arrived
            && S.past.heard[st.source] <= S.past.arrived[st.source]
            && st.start <= |S.past.heard[st.source]| && st.log <= S.past.heard[st.source][st.start..]
            && k.target in S.past.room && st.source in S.past.room && S.past.room[k.target] == S.past.room[st.source]
            && k.target != st.source
            && (k.target in S.table.sessions ==>
                  st.log == if S.table.sessions[k.target].opusPt.Some? then S.past.heard[st.source][st.start..] else [])
  {
    hide Reachable, Rosters, Mesh, NamesOk, LogsOk, SignalingOk, TimersOk;
    ReachableInv(S);
    assert StreamLive(k, S.past.streams[k], S.table.sessions, S.past.heard);
    assert StreamPast(k, S.past.streams[k], S.past.room, S.past.heard);
  }

  /**
   * A packet that reached a session's `Rtc` is handed on once and in order, or still waits; closing loses only what
   * waits.
   */
  lemma PacketsConserved(S: Srv, t: Sid)
    requires Reachable(S) && t in S.past.heard
    ensures t in S.past.arrived && S.past.heard[t] <= S.past.arrived[t]
    ensures t in S.table.sessions ==> S.past.arrived[t] == S.past.heard[t] + Inbound(S.table.sessions[t])
  {
    hide Reachable, Inv;
    ReachableInv(S);
  }

  /** A declared slot has its own stream, which carries the slot's source and nobody else. */
  lemma SlotHasStream(S: Srv, t: Sid, src: Sid)
    requires Reachable(S) && t in S.table.sessions && src in S.table.sessions[t].tx.slots
    requires S.table.sessions[t].tx.slots[src].declared
    ensures var k := StreamKey(t, S.table.sessions[t].tx.slots[src].ssrc);
            && k in S.past.streams && S.past.streams[k].source == src
            && forall b :: b in S.table.sessions[t].tx.slots && b != src && S.table.sessions[t].tx.slots[b].declared ==>
                 S.table.sessions[t].tx.slots[b].ssrc != k.ssrc
  {
    hide Reachable, Rosters, Mesh, NamesOk, LogsOk, SignalingOk, TimersOk, StreamLive, StreamPast;
    ReachableInv(S);
    var s := S.table.sessions[t];
    assert SlotOk(s, t, src, S.past.streams);
    forall b | b in s.tx.slots && b != src && s.tx.slots[b].declared
      ensures s.tx.slots[b].ssrc != s.tx.slots[src].ssrc
    {
      assert SlotOk(s, t, b, S.past.streams);
    }
  }

  /**
   * Negotiation history: offers delivered minus answers accepted is nought or one for every session there ever was,
   * and one exactly while an offer is in flight; undeclared slots exist only then; each peer is announced at most
   * once, and only after the offer that carries its m-line.
   */
  lemma NegotiationHistory(S: Srv)
    requires Reachable(S)
    ensures forall t :: t in S.past.sent ==>
              && t in S.past.accepted && S.past.accepted[t] <= Offers(S.past.sent[t]) <= S.past.accepted[t] + 1
              && LogOk(S.past.sent[t])
    ensures forall t :: t in S.table.sessions ==>
              && t in S.past.sent && t in S.past.accepted
              && (S.table.sessions[t].tx.offerPending <==> Offers(S.past.sent[t]) == S.past.accepted[t] + 1)
              && (forall p :: p in S.table.sessions[t].tx.slots && !S.table.sessions[t].tx.slots[p].declared ==>
                    S.table.sessions[t].tx.offerPending)
  {
    hide Reachable, NamesOk, MediaOk, TimersOk, LogOk, ToldHaveSlots, Apart, Covers, CallOk, Seated;
    ReachableInv(S);
    forall t | t in S.table.sessions
      ensures forall p :: p in S.table.sessions[t].tx.slots && !S.table.sessions[t].tx.slots[p].declared ==>
                S.table.sessions[t].tx.offerPending
    {
      assert AtRest(S.table.sessions[t], false) && PhaseOk(S.table.sessions[t]);
    }
  }

  /**
   * Call lifetime: the idle clock runs exactly while the roster is empty. A call that is empty when the timers are
   * dealt with goes exactly when it has been so for `idleReap`; of those there when everything is drained, exactly such
   * ones go, and no other call changes.
   */
  lemma CallLifetime(S: Srv, now: Instant, due: seq<Sid>, failing: set<Sid>)
    requires Reachable(S) && Possible(S, Time(now, due, failing))
    ensures forall k :: k in S.table.calls ==>
              (S.table.calls[k].emptySince.Some? <==> S.table.calls[k].participants == [])
    ensures var S1, S' := DrainReady(TimeOutEach(S, due, failing)), HandleTime(S, now, due, failing);
            && S'.loop.dirty == []
            && (forall t :: t in S'.table.sessions && S'.table.sessions[t].rtc.Some? ==>
                  S'.table.sessions[t].nextTimeout.Some?)
            && S'.table.calls.Keys <= S1.table.calls.Keys
            && (forall k :: k in S1.table.calls ==>
                  if Overdue(S1.table.calls[k], now, S1.env.cfg.idleReap) then k !in S'.table.calls
                  else k in S'.table.calls && S'.table.calls[k] == S1.table.calls[k])
            && (forall k :: k in S.table.calls && S.table.calls[k].participants == [] ==>
                  if Overdue(S.table.calls[k], now, S.env.cfg.idleReap) then k !in S'.table.calls
                  else k in S'.table.calls && S'.table.calls[k] == S.table.calls[k])
  {
    hide Reachable, Inv, DrainReady, TimeOutEach, Reap, Overdue;
    ReachableInv(S);
    EmptyIffIdle(S);
    TimeKeeps(S, now, due, failing);
    forall k | k in S.table.calls && S.table.calls[k].participants == []
      ensures var S' := HandleTime(S, now, due, failing);
              if Overdue(S.table.calls[k], now, S.env.cfg.idleReap) then k !in S'.table.calls
              else k in S'.table.calls && S'.table.calls[k] == S.table.calls[k]
    {
      EmptyCallGoes(S, now, due, failing, k);
    }
  }

  /** The loop panics on an input exactly when that input is an admitted join whose acknowledgement is lost. */
  lemma PanicsOnlyOnLostAck(S: Srv, input: Input)
    requires Reachable(S) && Possible(S, input)
    ensures Step(S, input).loop.crashed <==> AckLost(S, input)
  {
    hide Inv, Step, Possible, AckLost, Run, PossibleRun;
    ReachableInv(S);
    assert !S.loop.crashed;
    StepKeeps(S, input);
  }

  // ---- the slot registry --------------------------------------------------------------

  /** What the last well-formed entry for a hash says, reading a push from its end. */
  function LastFor(entries: seq<SlotEntry>, hash: seq<byte>): Option<SlotInfo> {
    if entries == [] then None
    else if entries[|entries| - 1].hash == hash && |hash| == 32 then Some(entries[|entries| - 1].info)
    else LastFor(entries[..|entries| - 1], hash)
  }

  function Find(slots: map<CallKey, SlotInfo>,
                k: CallKey): Option<SlotInfo> { if k in slots then Some(slots[k]) else None }

  lemma {:induction false} InsertSlotsAt(slots: map<CallKey, SlotInfo>, owner: seq<byte>, entries: seq<SlotEntry>,
                                         k: CallKey)
    ensures Find(InsertSlots(slots, owner, entries), k) ==
            if k.owner == owner && LastFor(entries, k.hash).Some? then LastFor(entries, k.hash) else Find(slots, k)
    decreases |entries|
  {
    if entries != [] {
      var hash := entries[0].hash;
      var slots' := if |hash| != 32 then slots else slots[CallKey(owner, hash) := entries[0].info];
      InsertSlotsAt(slots', owner, entries[1..], k);
      LastForHead(entries, k.hash);
    }
  }

  lemma {:induction false} LastForHead(entries: seq<SlotEntry>, hash: seq<byte>)
    requires entries != []
    ensures LastFor(entries, hash) ==
            if LastFor(entries[1..], hash).Some? then LastFor(entries[1..], hash)
            else if entries[0].hash == hash && |hash| == 32 then Some(entries[0].info) else None
    decreases |entries|
  {
    var n := |entries| - 1;
    if n > 0 {
      LastForHead(entries[..n], hash);
      assert entries[1..][..n - 1] == entries[..n][1..] && entries[1..][n - 1] == entries[n];
    }
  }

  /**
   * A push replaces the whole set of one owner, the last well-formed entry for a hash winning, and leaves every other
   * owner's slots alone.
   */
  lemma RegisterReplaces(S: Srv, owner: seq<byte>, entries: seq<SlotEntry>, k: CallKey)
    ensures Find(HandleRegister(S, owner, entries).registry.slots, k) ==
            if k.owner == owner then LastFor(entries, k.hash) else Find(S.registry.slots, k)
  {
    InsertSlotsAt(DropSlots(S.registry.slots, owner), owner, entries, k);
  }

  // ---- the ceiling on live calls ----------------------------------------------------

  /** A call that was there already, with nobody in it. */
  predicate Lingering(S: Srv, key: CallKey) { key in S.table.calls && S.table.calls[key].participants == [] }

  lemma {:induction false} IntroduceAllLoses(S: Srv, existing: seq<Source>, sid: Sid, sfu: SfuId, key: CallKey)
    requires InvDuring(S, DebtsOf(existing, sid), {}) && Company(S, existing, sid, sfu, key)
    ensures var S' := IntroduceAll(S, existing, sid, sfu);
            && S'.table.calls.Keys == S.table.calls.Keys
            && forall k :: k in S.table.calls && k != key ==>
                 S'.table.calls[k].participants == S.table.calls[k].participants
    decreases |existing|
  {
    hide Rosters, Mesh, NamesOk, TimersOk, LogsOk, SignalingOk, MediaOk, MaybeNegotiate;
    if existing != [] {
      var e := existing[0].src;
      var S1 := Introduce(S, e, sid, sfu);
      IntroduceKeeps(S, existing, sid, sfu, key);
      IntroduceLoses(S, existing, sid, sfu, key);
      IntroduceAllLoses(S1, existing[1..], sid, sfu, key);
    }
  }

  lemma IntroduceLoses(S: Srv, existing: seq<Source>, sid: Sid, sfu: SfuId, key: CallKey)
    requires existing != [] && InvDuring(S, DebtsOf(existing, sid), {}) && Company(S, existing, sid, sfu, key)
    ensures var S' := Introduce(S, existing[0].src, sid, sfu);
            && S'.table.calls.Keys == S.table.calls.Keys
            && forall k :: k in S.table.calls && k != key ==>
                 S'.table.calls[k].participants == S.table.calls[k].participants
  {
    hide Rosters, Mesh, NamesOk, TimersOk, LogsOk, SignalingOk, MediaOk, MaybeNegotiate;
    var e := existing[0].src;
    var owed := DebtsOf(existing, sid);
    assert existing[0] in existing && (e, sid) in owed;
    if e in S.table.sessions {
      var s := S.table.sessions[e];
      EnqueueKeeps(S, e, sid, sfu, owed);
      MaybeNegotiateOnlyLoses(SetSession(S, e, SetQueue(s, s.tx.queued + [Source(sid, sfu)])), e, owed - {(e, sid)},
                              {e});
      assert forall k :: k in S.table.calls && k != key ==> e !in S.table.calls[k].participants by {
        OneSeatOf(S, e, owed);
      }
    } else {
      MaybeNegotiateOnlyLoses(S, e, owed, {});
      assert MaybeNegotiate(S, e) == S by { NothingToNegotiate(S, e); }
    }
  }

  lemma NothingToNegotiate(S: Srv, e: Sid)
    requires e !in S.table.sessions
    ensures MaybeNegotiate(S, e) == S
  {
  }

  lemma OneSeatOf(S: Srv, e: Sid, owed: Debts)
    requires InvDuring(S, owed, {}) && e in S.table.sessions
    ensures forall k :: k in S.table.calls && S.table.sessions[e].callKey != Some(k) ==>
              e !in S.table.calls[k].participants
  {
    hide Rosters, Mesh, NamesOk, TimersOk, LogsOk, SignalingOk, MediaOk;
    OneSeat(S, e);
  }

  /** What an admitted join does to the set of live calls: it adds the joined one, whatever else happens on the way. */
  lemma SeatLive(S: Srv, sid: Sid, key: CallKey)
    requires Admissible(S, sid, key) && !S.loop.crashed && S.env.w.delivers(S.loop.tick)
    ensures LiveCalls(Seat(S, sid, key).table.calls) == LiveCalls(S.table.calls) + {key}
  {
    hide Rosters, Mesh, NamesOk, TimersOk, LogsOk, SignalingOk, MediaOk, Listed, CloseSession, IntroduceAll;
    var S1 := Admit(S, sid, key);
    var existing := Listed(S1, S1.table.calls[key].participants, sid);
    var owed := DebtsOf(existing, sid);
    var sfu := S1.loop.idCounter;
    var f := JoinAck(sfu, S1.table.calls[key].cap, Names(existing));
    AdmitKeeps(S, sid, key);
    AdmitCompany(S, sid, key);
    InvSent(S1, owed, {});
    VoiceSend.TrySendKeeps(S1, sid, f, owed, {});
    IntroduceAllLoses(TrySend(S1, sid, f), existing, sid, sfu, key);
    SeatKeeps(S, sid, key);
    var S' := Seat(S, sid, key);
    assert sid in S'.table.calls[key].participants by { SeatedAt(S', sid, {}, {}); }
  }

  /**
   * The ceiling on concurrent calls is kept by a join, except in exactly one case: the join is admitted to a call that
   * has emptied but is not reaped yet, while the relay is already at the ceiling.
   */
  lemma CeilingExactly(S: Srv, sid: Sid, token: seq<byte>)
    requires Inv(S) && sid in S.table.sessions && !S.loop.crashed
    requires |LiveCalls(S.table.calls)| <= S.env.cfg.maxConcurrentCalls
    requires Admitted(S, sid, token) ==> S.env.w.delivers(AckTick(S, sid, token))
    ensures |LiveCalls(HandleJoin(S, sid, token).table.calls)| > S.env.cfg.maxConcurrentCalls <==>
              && Admitted(S, sid, token) && Lingering(S, JoinKey(S, sid, token))
              && |LiveCalls(S.table.calls)| == S.env.cfg.maxConcurrentCalls
  {
    hide Inv, Seat, HandleJoin;
    var S' := HandleJoin(S, sid, token);
    var live, live' := LiveCalls(S.table.calls), LiveCalls(S'.table.calls);
    var key := JoinKey(S, sid, token);
    JoinDealt(S, sid, token);
    if Admitted(S, sid, token) {
      AdmittedLive(S, sid, token);
      if key in live { assert live + {key} == live; } else { assert |live + {key}| == |live| + 1; }
    } else {
      SubsetSize(live', live);
    }
  }

  lemma AdmittedLive(S: Srv, sid: Sid, token: seq<byte>)
    requires Inv(S) && sid in S.table.sessions && !S.loop.crashed
    requires Admitted(S, sid, token) && S.env.w.delivers(AckTick(S, sid, token))
    ensures LiveCalls(HandleJoin(S, sid, token).table.calls) == LiveCalls(S.table.calls) + {JoinKey(S, sid, token)}
    ensures JoinKey(S, sid, token) in LiveCalls(S.table.calls) || Lingering(S, JoinKey(S, sid, token)) ||
              |LiveCalls(S.table.calls)| < S.env.cfg.maxConcurrentCalls
  {
    hide Inv, Seat;
    var key := JoinKey(S, sid, token);
    HandleJoinKeeps(S, sid, token);
    var S1 := if key in S.table.calls then S else NewCall(S, key);
    if key !in S.table.calls { NewCallKeeps(S, key); }
    assert LiveCalls(S1.table.calls) == LiveCalls(S.table.calls);
    SeatKeeps(S1, sid, key);
    SeatLive(S1, sid, key);
  }

  /** More calls are live than the relay is meant to carry. */
  predicate Above(S: Srv) { |LiveCalls(S.table.calls)| > S.env.cfg.maxConcurrentCalls }

  /** A join is let in, and heard of it, to a call that is empty but still there while the relay is at its ceiling. */
  ghost predicate Revives(S: Srv, input: Input) {
    && LetIn(S, input) && !AckLost(S, input) && Lingering(S, JoinKey(S, input.sid, input.frame.token))
    && |LiveCalls(S.table.calls)| == S.env.cfg.maxConcurrentCalls
  }

  /** The state an input's own handler leaves, before the work list is drained. */
  function Handled(S: Srv, input: Input): Srv {
    if input.SessionFrame? && input.sid in S.table.sessions then DispatchFrame(S, input.sid, input.frame)
    else Step(S, input)
  }

  /** After no input of the run is the relay above its ceiling, not even before draining. */
  ghost predicate NeverAbove(S: Srv, inputs: seq<Input>)
    decreases |inputs|
  {
    inputs == [] || S.loop.crashed ||
    (var S1 := Handled(S, inputs[0]); !S1.loop.crashed ==> !Above(S1) && NeverAbove(Step(S, inputs[0]), inputs[1..]))
  }

  ghost predicate NeverRevives(S: Srv, inputs: seq<Input>)
    decreases |inputs|
  {
    inputs == [] || S.loop.crashed || (!Revives(S, inputs[0]) && NeverRevives(Step(S, inputs[0]), inputs[1..]))
  }

  lemma HandledLive(S: Srv, input: Input)
    requires Inv(S) && !S.loop.crashed && Possible(S, input)
    ensures var S1 := Handled(S, input);
            && S1.env == S.env && S1.loop.crashed == Step(S, input).loop.crashed && Step(S, input).env == S.env
            && (!LetIn(S, input) ==> LiveCalls(S1.table.calls) <= LiveCalls(S.table.calls))
            && (!S1.loop.crashed ==> LiveCalls(Step(S, input).table.calls) <= LiveCalls(S1.table.calls))
  {
    hide Inv, DispatchFrame, DrainReady, Admitted, AckLost, SessionsAfter, NobodyElseLost, CallsAfter, Grows, Later;
    hide DealtTaken, Drains, Marked;
    StepAfter(S, input);
    LiveAfter(S, input, Step(S, input));
    if input.SessionFrame? && input.sid in S.table.sessions {
      var S1 := DispatchFrame(S, input.sid, input.frame);
      DispatchKeeps(S, input.sid, input.frame);
      DispatchDealt(S, input.sid, input.frame);
      LiveAfter(S, input, S1);
      if !S1.loop.crashed {
        DrainReadyKeeps(S1);
        DrainReadyDrains(S1);
        LiveAfter(S1, input, DrainReady(S1));
      }
    }
  }

  lemma HandledExactly(S: Srv, input: Input)
    requires Inv(S) && !S.loop.crashed && Possible(S, input) && !Above(S)
    ensures var S1 := Handled(S, input);
            if S1.loop.crashed then !Revives(S, input)
            else (Above(S1) <==> Revives(S, input)) && (!Above(S1) ==> !Above(Step(S, input)))
  {
    hide Inv, DispatchFrame, DrainReady, Admitted, Handled, Step;
    var S1 := Handled(S, input);
    HandledLive(S, input);
    if !S1.loop.crashed { SubsetSize(LiveCalls(Step(S, input).table.calls), LiveCalls(S1.table.calls)); }
    if LetIn(S, input) {
      JoinExactly(S, input.sid, input.frame.token);
    } else {
      SubsetSize(LiveCalls(S1.table.calls), LiveCalls(S.table.calls));
    }
  }

  lemma JoinExactly(S: Srv, sid: Sid, token: seq<byte>)
    requires Inv(S) && !S.loop.crashed && !Above(S) && sid in S.table.sessions && Admitted(S, sid, token)
    ensures var input := SessionFrame(sid, Join(token));
            var S1 := Handled(S, input);
            if S1.loop.crashed then AckLost(S, input) else Above(S1) <==> Revives(S, input)
  {
    hide Inv, HandleJoin, Admitted;
    assert Handled(S, SessionFrame(sid, Join(token))) == HandleJoin(S, sid, token);
    HandleJoinKeeps(S, sid, token);
    JoinDealt(S, sid, token);
    if !HandleJoin(S, sid, token).loop.crashed { CeilingExactly(S, sid, token); }
  }

  /**
   * The ceiling over whole runs: a run that starts within it goes above it exactly when some join revives an empty call
   * while the relay is at the ceiling.
   */
  lemma {:induction false} CeilingOverRuns(S: Srv, inputs: seq<Input>)
    requires Inv(S) && !S.loop.crashed && PossibleRun(S, inputs) && !Above(S)
    ensures NeverAbove(S, inputs) <==> NeverRevives(S, inputs)
    ensures NeverRevives(S, inputs) && !Run(S, inputs).loop.crashed ==> !Above(Run(S, inputs))
    decreases |inputs|
  {
    hide Inv, Step, Possible, Handled, Revives, Above;
    if inputs != [] {
      StepKeeps(S, inputs[0]);
      HandledLive(S, inputs[0]);
      HandledExactly(S, inputs[0]);
      var S1 := Step(S, inputs[0]);
      if !S1.loop.crashed && !Above(Handled(S, inputs[0])) { CeilingOverRuns(S1, inputs[1..]); }
    }
  }

  /** And so for every run from start-up. */
  lemma CeilingFromStart(w: World, cfg: Cfg, inputs: seq<Input>)
    requires PossibleRun(Start(w, cfg), inputs)
    ensures NeverAbove(Start(w, cfg), inputs) <==> NeverRevives(Start(w, cfg), inputs)
    ensures NeverRevives(Start(w, cfg), inputs) && !Run(Start(w, cfg), inputs).loop.crashed ==>
              !Above(Run(Start(w, cfg), inputs))
  {
    hide Inv, PossibleRun, NeverAbove, NeverRevives, Run;
    StartKeeps(w, cfg);
    assert LiveCalls(Start(w, cfg).table.calls) == {};
    CeilingOverRuns(Start(w, cfg), inputs);
  }
}
