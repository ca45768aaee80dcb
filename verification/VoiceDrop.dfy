/** Dropping an owner takes away what is theirs and nothing else. */
module VoiceDrop {
  import opened Basics
  import opened VoiceTypes
  import opened VoiceSpec
  import opened VoiceInvariant
  import opened VoiceClose
  import VoiceGone
  import opened VoiceNegotiate
  import opened VoiceLoop
  import opened VoiceStill
  import opened VoiceDealt
  import opened VoiceHistory
  import opened VoiceTheorems
  import Frames = VoiceFrames

  /** Sessions, calls and logs of everybody else are exactly as they were. */
  ghost predicate Untouched(S: Srv, S': Srv, owner: seq<byte>) {
    && (forall t :: t in S.table.sessions && S.table.sessions[t].owner != owner ==>
          t in S'.table.sessions && S'.table.sessions[t] == S.table.sessions[t] && Log(S', t) == Log(S, t))
    && (forall k :: k in S.table.calls && k.owner != owner ==>
          k in S'.table.calls && S'.table.calls[k] == S.table.calls[k])
  }

  lemma Strangers(S: Srv, sid: Sid, t: Sid)
    requires Inv(S) && sid in S.table.sessions && t in S.table.sessions
    requires S.table.sessions[t].owner != S.table.sessions[sid].owner
    ensures t !in Frames.Company(S, sid) && Forget(S.table.sessions[t], sid) == S.table.sessions[t]
  {
    hide NamesOk, LogsOk, SignalingOk, MediaOk, TimersOk, Covers, AtRest, PhaseOk, Without, WithoutSource;
    var ss, cs, room := S.table.sessions, S.table.calls, S.past.room;
    assert Seated(ss[sid], sid, cs, room) && Seated(ss[t], t, cs, room) && Apart(ss[t], cs, t, {});
    if ss[sid].callKey.Some? { assert CallOk(ss, ss[sid].callKey.value, cs[ss[sid].callKey.value]); }
    if ss[t].callKey.Some? { assert CallOk(ss, ss[t].callKey.value, cs[ss[t].callKey.value]); }
    assert !Peer(ss[t], cs, t, sid);
    assert sid !in ss[t].tx.slots && forall e :: e in ss[t].tx.queued ==> e.src != sid;
    ForgetsNothing(ss[t], sid);
  }

  lemma CloseUntouched(S: Srv, sid: Sid, final: Option<ServerFrame>)
    requires Inv(S) && sid in S.table.sessions && (final.Some? ==> Quiet(final.value))
    ensures Untouched(S, CloseSession(S, sid, final), S.table.sessions[sid].owner)
  {
    hide Rosters, Mesh, NamesOk, LogsOk, SignalingOk, MediaOk, TimersOk, CloseSession, Log;
    var S', owner := CloseSession(S, sid, final), S.table.sessions[sid].owner;
    InvSent(S, {}, {});
    CloseEffect(S, sid, final, {}, {});
    Frames.CloseTells(S, sid, final);
    forall t | t in S.table.sessions && S.table.sessions[t].owner != owner
      ensures t in S'.table.sessions && S'.table.sessions[t] == S.table.sessions[t] && Log(S', t) == Log(S, t)
    {
      Strangers(S, sid, t);
    }
    CloseCalls(S, sid, final);
    assert S.table.sessions[sid].callKey.Some? ==> S.table.sessions[sid].callKey.value.owner == owner by {
      RosterSeat(S, sid);
    }
  }

  lemma RosterSeat(S: Srv, sid: Sid)
    requires Inv(S) && sid in S.table.sessions
    ensures var s := S.table.sessions[sid]; s.callKey.Some? ==> s.callKey.value.owner == s.owner
  {
    hide Mesh, NamesOk, LogsOk, SignalingOk, MediaOk, TimersOk, CallOk, PhaseOk;
    assert Seated(S.table.sessions[sid], sid, S.table.calls, S.past.room);
  }

  /** Closing touches the call of the closed session only. */
  lemma CloseCalls(S: Srv, sid: Sid, final: Option<ServerFrame>)
    requires sid in S.table.sessions
    ensures forall k :: k in S.table.calls && S.table.sessions[sid].callKey != Some(k) ==>
              k in CloseSession(S, sid, final).table.calls
              && CloseSession(S, sid, final).table.calls[k] == S.table.calls[k]
  {
    hide ForgetAll, Unseat;
    var s, S1 := S.table.sessions[sid], Departed(S, sid, final);
    DepartedFrame(S, sid, final);
    if s.callKey.Some? && s.callKey.value in S.table.calls {
      ForgetAllFrame(S1, S1.table.calls[s.callKey.value].participants, sid, s.sfuId);
    }
  }

  /** Of those closed, each is offered the final frame once; what else it hears is who left. */
  ghost predicate Dismisses(S: Srv, S': Srv, t: Sid, final: ServerFrame) {
    exists n :: Asked(S, S', n) && Frames.Said(Log(S', t)) == Frames.Said(Log(S, t)) + Frames.Heard(S, n, final)
  }

  lemma CloseSays(S: Srv, sid: Sid, final: ServerFrame)
    requires Inv(S) && sid in S.table.sessions && !final.PeerLeft?
    ensures var S' := CloseSession(S, sid, Some(final));
            && Frames.Said(Log(S', sid)) == Frames.Said(Log(S, sid)) + Frames.Heard(S, S.loop.tick, final)
            && (forall t :: t != sid ==> Frames.Said(Log(S', t)) == Frames.Said(Log(S, t)))
            && (forall t :: t !in S.table.sessions ==> Log(S', t) == Log(S, t))
  {
    hide Inv, CloseSession, Log;
    var S' := CloseSession(S, sid, Some(final));
    Frames.CloseTells(S, sid, Some(final));
    Frames.SaidMore(Log(S, sid), final);
    assert Log(S, sid) + [] == Log(S, sid);
    var company, left := Frames.Company(S, sid), PeerLeft(S.table.sessions[sid].sfuId);
    forall t | t != sid ensures Frames.Said(Log(S', t)) == Frames.Said(Log(S, t)) {
      if t in company {
        var i :| 0 <= i < |company| && company[i] == t;
        Frames.SaidMore(Log(S, t), left);
        assert Log(S, t) + [] == Log(S, t);
      }
    }
    forall t | t !in S.table.sessions ensures Log(S', t) == Log(S, t) { NoCompany(S, sid, t); }
  }

  lemma NoCompany(S: Srv, sid: Sid, t: Sid)
    requires Inv(S) && sid in S.table.sessions && t !in S.table.sessions
    ensures t !in Frames.Company(S, sid)
  {
    if S.table.sessions[sid].callKey.Some? { Frames.SeatOf(S, sid); }
  }

  lemma {:induction false} CloseEachDismisses(S: Srv, order: seq<Sid>, owner: seq<byte>, final: ServerFrame)
    requires Inv(S) && NoDup(order) && Quiet(final) && !final.PeerLeft?
    requires forall t :: t in order ==> t in S.table.sessions && S.table.sessions[t].owner == owner
    ensures var S' := CloseEach(S, order, Some(final));
            && Untouched(S, S', owner) && (forall t :: t in order ==> Dismisses(S, S', t, final))
            && (forall t :: t !in S.table.sessions ==> Log(S', t) == Log(S, t))
    decreases |order|
  {
    hide Inv, CloseSession, Log, Quiet, Onward;
    if order != [] {
      var sid, rest := order[0], order[1..];
      var S1 := CloseSession(S, sid, Some(final));
      assert order == [sid] + rest && sid !in rest;
      CloseStill(S, sid, Some(final));
      assert Inv(S1) by { CloseInv(S, sid, final); }
      CloseSays(S, sid, final);
      CloseAsks(S, sid, final);
      CloseUntouched(S, sid, Some(final));
      forall t | t in rest ensures t in S1.table.sessions && S1.table.sessions[t].owner == owner {
        assert t in order && t in S1.table.sessions;
        OnwardSessions(S, S1);
      }
      CloseEachDismisses(S1, rest, owner, final);
      CloseEachStill(S1, rest, Some(final));
      StrangersLater(S, S1, CloseEach(S1, rest, Some(final)), owner);
      forall t | t in order ensures Dismisses(S, CloseEach(S1, rest, Some(final)), t, final) {
        DismissesLater(S, S1, CloseEach(S1, rest, Some(final)), sid, t, final);
      }
    }
  }

  lemma CloseAsks(S: Srv, sid: Sid, final: ServerFrame)
    requires sid in S.table.sessions
    ensures S.loop.tick < CloseSession(S, sid, Some(final)).loop.tick
  {
    hide ForgetAll;
    var s, S1 := S.table.sessions[sid], Departed(S, sid, Some(final));
    if s.callKey.Some? && s.callKey.value in S.table.calls {
      ForgetAllStill(S1, S1.table.calls[s.callKey.value].participants, sid, s.sfuId);
    }
  }

  lemma CloseInv(S: Srv, sid: Sid, final: ServerFrame)
    requires Inv(S) && Quiet(final)
    ensures Inv(CloseSession(S, sid, Some(final)))
  {
    hide CloseSession, Standing, TimersOk;
    VoiceGone.CloseKeeps(S, sid, Some(final), {}, {});
  }

  lemma StrangersLater(S: Srv, S1: Srv, S': Srv, owner: seq<byte>)
    requires Untouched(S, S1, owner) && Untouched(S1, S', owner)
    ensures Untouched(S, S', owner)
  {
  }

  lemma DismissesLater(S: Srv, S1: Srv, S': Srv, sid: Sid, t: Sid, final: ServerFrame)
    requires Still(S, S1) && Still(S1, S') && sid !in S1.table.sessions && S.loop.tick < S1.loop.tick
    requires Frames.Said(Log(S1, sid)) == Frames.Said(Log(S, sid)) + Frames.Heard(S, S.loop.tick, final)
    requires forall x :: x != sid ==> Frames.Said(Log(S1, x)) == Frames.Said(Log(S, x))
    requires forall x :: x !in S1.table.sessions ==> Log(S', x) == Log(S1, x)
    requires t != sid ==> Dismisses(S1, S', t, final)
    ensures Dismisses(S, S', t, final)
  {
    hide SameTimers, SameCalls, SameSessions, Unmoved, Grows, Log, Frames.Said;
    if t == sid {
      assert Asked(S, S', S.loop.tick);
    } else {
      var n :| Asked(S1, S', n) && Frames.Said(Log(S', t)) == Frames.Said(Log(S1, t)) + Frames.Heard(S1, n, final);
      assert Asked(S, S', n);
    }
  }

  /**
   * Dropping an owner: exactly that owner's sessions and calls and slots go; each of those sessions is offered the
   * goodbye; everybody else's sessions, calls, slots and logs are exactly as they were.
   */
  lemma DropExactly(S: Srv, owner: seq<byte>, order: seq<Sid>)
    requires Reachable(S) && Possible(S, DropOwner(owner, order))
    ensures var S' := Step(S, DropOwner(owner, order));
            && S'.table.sessions.Keys == (set t | t in S.table.sessions && S.table.sessions[t].owner != owner)
            && S'.table.calls.Keys == (set k | k in S.table.calls && k.owner != owner)
            && (forall k :: k in S'.registry.slots <==> k in S.registry.slots && k.owner != owner)
            && (forall k :: k in S'.registry.slots ==> S'.registry.slots[k] == S.registry.slots[k])
            && Untouched(S, S', owner)
            && (forall t :: t in S.table.sessions && S.table.sessions[t].owner == owner ==> Dismisses(S, S', t, Bye))
  {
    hide Reachable, Inv, Step, CallsKept, SessionsAfter, Grows, Untouched, Dismisses, ArrivedAfter, Later, Dismissed;
    ReachableUp(S);
    ReachableInv(S);
    var S' := Step(S, DropOwner(owner, order));
    assert S' == HandleDrop(S, owner, order) by { Dropping(S, owner, order); }
    hide HandleDrop;
    DropAfter(S, owner, order);
    StepRest(S, DropOwner(owner, order));
    DroppedKeys(S, owner, order);
    KeptKeys(S, S', owner);
    DropTells(S, owner, order);
  }

  lemma Dropping(S: Srv, owner: seq<byte>, order: seq<Sid>)
    ensures Step(S, DropOwner(owner, order)) == HandleDrop(S, owner, order)
  {
  }

  lemma DroppedKeys(S: Srv, owner: seq<byte>, order: seq<Sid>)
    ensures S.table.sessions.Keys - Dismissed(S, DropOwner(owner, order))
            == set t | t in S.table.sessions && S.table.sessions[t].owner != owner
  {
  }

  lemma DropTells(S: Srv, owner: seq<byte>, order: seq<Sid>)
    requires Inv(S) && Enumerates(order, SessionsOf(S, owner))
    ensures var S' := HandleDrop(S, owner, order);
            && Untouched(S, S', owner)
            && (forall t :: t in S.table.sessions && S.table.sessions[t].owner == owner ==> Dismisses(S, S', t, Bye))
  {
    hide Inv, CloseEach, DropSlots, Log, Frames.Said, Frames.Heard;
    var S0 := S.(registry := Registry(DropSlots(S.registry.slots, owner)));
    var S1, S' := CloseEach(S0, order, Some(Bye)), HandleDrop(S, owner, order);
    assert Inv(S0) by { SlotsAside(S, S0); }
    CloseEachDismisses(S0, order, owner, Bye);
    SameLogs(S, S0);
    SameLogs(S', S1);
    forall t | t in S.table.sessions && S.table.sessions[t].owner == owner ensures Dismisses(S, S', t, Bye) {
      assert t in order && Dismisses(S0, S1, t, Bye);
      var n :| Asked(S0, S1, n) && Frames.Said(Log(S1, t)) == Frames.Said(Log(S0, t)) + Frames.Heard(S0, n, Bye);
      assert Asked(S, S', n) && Frames.Heard(S, n, Bye) == Frames.Heard(S0, n, Bye) by { Frames.SameHearing(S, S0); }
    }
  }

  lemma SameLogs(S: Srv, S': Srv)
    requires S'.past == S.past
    ensures forall t :: Log(S', t) == Log(S, t)
  {
  }

  lemma SlotsAside(S: Srv, S0: Srv)
    requires Inv(S) && S0 == S.(registry := S0.registry)
    ensures Inv(S0)
  {
    hide Rosters, Mesh, NamesOk, LogsOk, SignalingOk, MediaOk, TimersOk;
  }

  lemma KeptKeys(S: Srv, S': Srv, owner: seq<byte>)
    requires CallsKept(S, S', set k | k in S.table.calls && k.owner != owner)
    ensures S'.table.calls.Keys == set k | k in S.table.calls && k.owner != owner
  {
  }
}
