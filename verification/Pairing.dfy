/** Pairing tokens as a protocol: mints from the page and the command line, claims racing each other and the mints. */
module Pairing {
  import opened Basics

  type Token = seq<byte>
  type Owner = seq<byte>

  datatype Pending = Pending(createdAt: int, expiresAt: int, consumedAt: Option<int>)

  type Rows = map<Token, Pending>

  // ---- the table ---------------------------------------------------------------------

  function PruneExpired(rows: Rows, now: int): Rows { map t | t in rows && !(rows[t].expiresAt < now) :: rows[t] }

  function ConsumeAll(rows: Rows, at: int): Rows {
    map t | t in rows :: if rows[t].consumedAt.None? then rows[t].(consumedAt := Some(at)) else rows[t]
  }

  predicate Live(rows: Rows, t: Token) { t in rows && rows[t].consumedAt.None? }

  function MarkConsumed(rows: Rows, t: Token, at: int): Rows {
    if Live(rows, t) then rows[t := rows[t].(consumedAt := Some(at))] else rows
  }

  /** What a mint leaves: pruning may fail unnoticed; a token that is already there rolls everything back. */
  function Mint(rows: Rows, t: Token, now: int, ttl: int, pruned: bool): Option<Rows> {
    var rows1 := if pruned then PruneExpired(rows, now) else rows;
    if t in rows1 then None else Some(ConsumeAll(rows1, now)[t := Pending(now, now + ttl, None)])
  }

  // ---- the protocol ---------------------------------------------------------------------

  /** Where a claim is between its statements, each of which commits on its own. */
  datatype Stage = Asked | NotPaired | Seen(expiresAt: int) | InTime | WithoutToken | WithToken | Refused

  datatype Claim = Claim(owner: Owner, token: Token, stage: Stage)

  /** `minted` and `proceeded` count the mints that committed and the claims that went ahead on a token. */
  datatype State = State(rows: Rows, paired: set<Owner>, claims: map<nat, Claim>, minted: multiset<Token>,
                         proceeded: multiset<Token>,
                         last: Option<Token>)

  datatype Step =
    | DoMint(token: Token, now: int, ttl: int, pruned: bool)
    | Arrive(id: nat, owner: Owner, token: Token)
    | LookUpOwner(id: nat)
    | LookUpToken(id: nat)
    | CheckExpiry(id: nat, now: int)
    | Consume(id: nat, now: int)
    | SetPaired(owner: Owner, yes: bool)

  function At(S: State, id: nat, stage: Stage): State
    requires id in S.claims
  {
    S.(claims := S.claims[id := S.claims[id].(stage := stage)])
  }

  function Next(S: State, step: Step): State {
    match step
    case DoMint(t, now, ttl, pruned) =>
      var r := Mint(S.rows, t, now, ttl, pruned);
      if r.None? then S else S.(rows := r.value, minted := S.minted + multiset{t}, last := Some(t))
    case Arrive(id, owner, token) =>
      if id in S.claims then S else S.(claims := S.claims[id := Claim(owner, token, Asked)])
    case LookUpOwner(id) =>
      if id !in S.claims || S.claims[id].stage != Asked then S
      else At(S, id, if S.claims[id].owner in S.paired then WithoutToken else NotPaired)
    case LookUpToken(id) =>
      if id !in S.claims || S.claims[id].stage != NotPaired then S
      else At(S, id, if S.claims[id].token in S.rows then Seen(S.rows[S.claims[id].token].expiresAt) else Refused)
    case CheckExpiry(id, now) =>
      if id !in S.claims || !S.claims[id].stage.Seen? then S
      else At(S, id, if S.claims[id].stage.expiresAt < now then Refused else InTime)
    case Consume(id, now) =>
      if id !in S.claims || S.claims[id].stage != InTime then S
      else if Live(S.rows, S.claims[id].token)
      then At(S, id, WithToken).(rows := MarkConsumed(S.rows, S.claims[id].token, now),
                                 proceeded := S.proceeded + multiset{S.claims[id].token})
      else At(S, id, Refused)
    case SetPaired(o, yes) => S.(paired := if yes then S.paired + {o} else S.paired - {o})
  }

  const START := State(map[], {}, map[], multiset{}, multiset{}, None)

  function Run(S: State, steps: seq<Step>): State
    decreases |steps|
  {
    if steps == [] then S else Run(Next(S, steps[0]), steps[1..])
  }

  // ---- what holds throughout ----------------------------------------------------------------

  /** Only the token minted last can be live, and a claim went ahead at most once for each time a token was minted. */
  ghost predicate Inv(S: State) {
    && (forall t :: Live(S.rows, t) ==> S.last == Some(t))
    && (forall t :: S.proceeded[t] + (if Live(S.rows, t) then 1 else 0) <= S.minted[t])
    && (S.last.Some? ==> S.last.value in S.minted)
  }

  lemma MintKeeps(S: State, t: Token, now: int, ttl: int, pruned: bool)
    requires Inv(S)
    ensures Inv(Next(S, DoMint(t, now, ttl, pruned)))
  {
    var S' := Next(S, DoMint(t, now, ttl, pruned));
    if S' != S {
      forall x ensures (Live(S'.rows, x) <==> x == t) && S'.minted[x] == S.minted[x] + if x == t then 1 else 0 { }
    }
  }

  lemma StepKeeps(S: State, step: Step)
    requires Inv(S)
    ensures Inv(Next(S, step))
  {
    match step
    case DoMint(t, now, ttl, pruned) => MintKeeps(S, t, now, ttl, pruned);
    case Consume(id, now) =>
      var S' := Next(S, step);
      if S'.rows != S.rows {
        var t := S.claims[id].token;
        forall x
          ensures (Live(S'.rows, x) <==> x != t && Live(S.rows, x))
          ensures S'.proceeded[x] == S.proceeded[x] + if x == t then 1 else 0
        {
        }
      }
    case _ =>
  }

  lemma {:induction false} RunKeeps(S: State, steps: seq<Step>)
    requires Inv(S)
    ensures Inv(Run(S, steps))
    decreases |steps|
  {
    hide Inv, Next;
    if steps != [] {
      StepKeeps(S, steps[0]);
      RunKeeps(Next(S, steps[0]), steps[1..]);
    }
  }

  /** In every committed state at most one token can still be claimed, and it is the one minted last. */
  lemma OneLiveToken(steps: seq<Step>, a: Token, b: Token)
    ensures var S := Run(START, steps); Live(S.rows, a) && Live(S.rows, b) ==> a == b && S.last == Some(a)
  {
    RunKeeps(START, steps);
  }

  /** A token that was minted once lets at most one claim through, whatever raced; and one never minted lets none. */
  lemma SingleUse(steps: seq<Step>, t: Token)
    ensures var S := Run(START, steps); S.proceeded[t] <= S.minted[t]
  {
    RunKeeps(START, steps);
  }

  /** A claim that goes ahead on a token does so on the one minted last: none does once a later mint has committed. */
  lemma OnlyTheLatest(steps: seq<Step>, step: Step)
    ensures var S := Run(START, steps); var S' := Next(S, step);
            S'.proceeded != S.proceeded ==>
              && step.Consume? && step.id in S.claims && S.last == Some(S.claims[step.id].token)
              && S'.claims[step.id].stage == WithToken
  {
    RunKeeps(START, steps);
  }

  lemma DeadStep(S: State, step: Step, t: Token)
    requires !Live(S.rows, t) && Next(S, step).minted[t] == S.minted[t]
    ensures !Live(Next(S, step).rows, t) && Next(S, step).proceeded[t] == S.proceeded[t]
  {
  }

  /** A token that cannot be claimed lets nobody through, and stays so, until it is minted again. */
  lemma {:induction false} StaysDead(S: State, steps: seq<Step>, t: Token)
    requires !Live(S.rows, t) && Run(S, steps).minted[t] == S.minted[t]
    ensures Run(S, steps).proceeded[t] == S.proceeded[t] && !Live(Run(S, steps).rows, t)
    decreases |steps|
  {
    hide Next, Live;
    if steps != [] {
      var S1 := Next(S, steps[0]);
      MintedGrows(S1, steps[1..], t);
      MintedGrowsOnce(S, steps[0], t);
      DeadStep(S, steps[0], t);
      StaysDead(S1, steps[1..], t);
    }
  }

  lemma MintedGrowsOnce(S: State, step: Step, t: Token)
    ensures S.minted[t] <= Next(S, step).minted[t]
  {
  }

  lemma {:induction false} MintedGrows(S: State, steps: seq<Step>, t: Token)
    ensures S.minted[t] <= Run(S, steps).minted[t]
    decreases |steps|
  {
    hide Next;
    if steps != [] {
      MintedGrowsOnce(S, steps[0], t);
      MintedGrows(Next(S, steps[0]), steps[1..], t);
    }
  }

  // ---- a token works, and for how long ------------------------------------------------------------

  /**
   * What a mint does to the table: it goes through unless the token is there and is not pruned; the token can then be
   * claimed for `ttl` seconds; every other token that is left is used up, as it was or as of now.
   */
  lemma MintExactly(rows: Rows, t: Token, now: int, ttl: int, pruned: bool)
    ensures var r := Mint(rows, t, now, ttl, pruned);
            && (r.None? <==> t in rows && !(pruned && rows[t].expiresAt < now))
            && (r.Some? ==>
                  && t in r.value && r.value[t] == Pending(now, now + ttl, None)
                  && (forall x :: x != t ==> (x in r.value <==> x in rows && !(pruned && rows[x].expiresAt < now)))
                  && (forall x :: x in r.value && x != t ==>
                        && r.value[x].createdAt == rows[x].createdAt && r.value[x].expiresAt == rows[x].expiresAt
                        && r.value[x].consumedAt == if rows[x].consumedAt.Some? then rows[x].consumedAt else Some(now)))
  {
  }

  /**
   * These steps have nothing to do with the claim `id` on `t`: no mint goes through, nobody else uses `t`, and the
   * claim itself does not move.
   */
  ghost predicate Elsewhere(S: State, steps: seq<Step>, id: nat, t: Token)
    decreases |steps|
  {
    steps == [] ||
    (&& ElsewhereStep(S, steps[0], id, t) && Elsewhere(Next(S, steps[0]), steps[1..], id, t))
  }

  ghost predicate ElsewhereStep(S: State, step: Step, id: nat, t: Token) {
    match step
    case DoMint(x, now, ttl, pruned) => Mint(S.rows, x, now, ttl, pruned).None?
    case SetPaired(_, _) => true
    case Consume(other, _) => other != id && (other in S.claims ==> S.claims[other].token != t)
    case _ => step.id != id
  }

  lemma {:induction false} ElsewhereKeeps(S: State, steps: seq<Step>, id: nat, t: Token)
    requires Elsewhere(S, steps, id, t)
    ensures var S' := Run(S, steps);
            && (t in S'.rows <==> t in S.rows) && (t in S.rows ==> S'.rows[t] == S.rows[t])
            && (id in S'.claims <==> id in S.claims) && (id in S.claims ==> S'.claims[id] == S.claims[id])
            && S'.proceeded[t] == S.proceeded[t]
    decreases |steps|
  {
    if steps != [] {
      ElsewhereKeepsOne(S, steps[0], id, t);
      hide Next, ElsewhereStep;
      ElsewhereKeeps(Next(S, steps[0]), steps[1..], id, t);
    }
  }

  lemma ElsewhereKeepsOne(S: State, step: Step, id: nat, t: Token)
    requires ElsewhereStep(S, step, id, t)
    ensures var S' := Next(S, step);
            && (t in S'.rows <==> t in S.rows) && (t in S.rows ==> S'.rows[t] == S.rows[t])
            && (id in S'.claims <==> id in S.claims) && (id in S.claims ==> S'.claims[id] == S.claims[id])
            && S'.proceeded[t] == S.proceeded[t]
  {
  }

  /** The five statements of a claim, and what comes before each of them. */
  datatype Gaps = Gaps(arrive: seq<Step>, owner: seq<Step>, token: seq<Step>, expiry: seq<Step>, consume: seq<Step>)

  function Arrived(S: State, g: Gaps, id: nat, o: Owner, t: Token): State { Next(Run(S, g.arrive), Arrive(id, o, t)) }

  function KnownOwner(S: State, g: Gaps, id: nat, o: Owner, t: Token): State {
    Next(Run(Arrived(S, g, id, o, t), g.owner), LookUpOwner(id))
  }

  function KnownToken(S: State, g: Gaps, id: nat, o: Owner, t: Token): State {
    Next(Run(KnownOwner(S, g, id, o, t), g.token), LookUpToken(id))
  }

  function KnownTime(S: State, g: Gaps, id: nat, o: Owner, t: Token, at: int): State {
    Next(Run(KnownToken(S, g, id, o, t), g.expiry), CheckExpiry(id, at))
  }

  function Claimed(S: State, g: Gaps, id: nat, o: Owner, t: Token, at: int, now: int): State {
    Next(Run(KnownTime(S, g, id, o, t, at), g.consume), Consume(id, now))
  }

  /** Whatever else goes on between the statements, it goes on elsewhere. */
  ghost predicate Undisturbed(S: State, g: Gaps, id: nat, o: Owner, t: Token, at: int) {
    && id !in S.claims && Elsewhere(S, g.arrive, id, t) && Elsewhere(Arrived(S, g, id, o, t), g.owner, id, t)
    && Elsewhere(KnownOwner(S, g, id, o, t), g.token, id, t)
    && Elsewhere(KnownToken(S, g, id, o, t), g.expiry, id, t)
    && Elsewhere(KnownTime(S, g, id, o, t, at), g.consume, id, t)
  }

  /** Up to the expiry check, for a claim by somebody unpaired on a token that can be claimed until `until`. */
  lemma ReachesExpiry(S: State, g: Gaps, id: nat, o: Owner, t: Token, at: int, until: int)
    requires Undisturbed(S, g, id, o, t, at) && Live(S.rows, t) && S.rows[t].expiresAt == until
    requires o !in Run(Arrived(S, g, id, o, t), g.owner).paired
    ensures var S' := KnownTime(S, g, id, o, t, at);
            && t in S'.rows && S'.rows[t] == S.rows[t] && S'.proceeded[t] == S.proceeded[t]
            && id in S'.claims && S'.claims[id] == Claim(o, t, if at <= until then InTime else Refused)
  {
    hide Elsewhere, Run;
    ElsewhereKeeps(S, g.arrive, id, t);
    ElsewhereKeeps(Arrived(S, g, id, o, t), g.owner, id, t);
    ElsewhereKeeps(KnownOwner(S, g, id, o, t), g.token, id, t);
    ElsewhereKeeps(KnownToken(S, g, id, o, t), g.expiry, id, t);
  }

  /**
   * A token works for as long as it was minted for: after a mint that went through, a claim by somebody unpaired, with
   * anything but another mint or use of the token going on between its statements, goes ahead exactly when its expiry
   * is checked within `ttl` of the mint, and is refused otherwise; the token is used up exactly when it goes ahead.
   */
  lemma WorksUntilExpiry(S: State, t: Token, now: int, ttl: int, pruned: bool, g: Gaps, id: nat, o: Owner, at: int,
                         used: int)
    requires Mint(S.rows, t, now, ttl, pruned).Some?
    requires var M := Next(S, DoMint(t, now, ttl, pruned));
             Undisturbed(M, g, id, o, t, at) && o !in Run(Arrived(M, g, id, o, t), g.owner).paired
    ensures var M := Next(S, DoMint(t, now, ttl, pruned));
            var E := Claimed(M, g, id, o, t, at, used);
            && id in E.claims && E.claims[id].stage == (if at <= now + ttl then WithToken else Refused)
            && (Live(E.rows, t) <==> at > now + ttl)
            && E.proceeded[t] == S.proceeded[t] + if at <= now + ttl then 1 else 0
  {
    hide Elsewhere, Run, Arrived, KnownTime;
    var M := Next(S, DoMint(t, now, ttl, pruned));
    ReachesExpiry(M, g, id, o, t, at, now + ttl);
    ElsewhereKeeps(KnownTime(M, g, id, o, t, at), g.consume, id, t);
  }

  /** Somebody already paired needs no token, and uses none up. */
  lemma PairedNeedsNone(S: State, g: Gaps, id: nat, o: Owner, t: Token)
    requires id !in S.claims && Elsewhere(S, g.arrive, id, t) && Elsewhere(Arrived(S, g, id, o, t), g.owner, id, t)
    requires o in Run(Arrived(S, g, id, o, t), g.owner).paired
    ensures var S' := KnownOwner(S, g, id, o, t);
            && id in S'.claims && S'.claims[id].stage == WithoutToken && S'.proceeded[t] == S.proceeded[t]
            && (t in S'.rows <==> t in S.rows) && (t in S.rows ==> S'.rows[t] == S.rows[t])
  {
    hide Elsewhere, Run;
    ElsewhereKeeps(S, g.arrive, id, t);
    ElsewhereKeeps(Arrived(S, g, id, o, t), g.owner, id, t);
  }

  // ---- the handlers -----------------------------------------------------------------------------

  datatype TokenOutcome = Proceed(onToken: bool) | Unknown | Expired | AlreadyUsed

  class Tokens {
    var rows: Rows

    constructor ()
      ensures rows == map[]
    {
      rows := map[];
    }

    /**
     * One transaction; `inserted` is false when the random token is already in the table, and then nothing has changed.
     */
    method MintToken(t: Token, now: int, ttl: int, pruned: bool) returns (inserted: bool)
      modifies this
      ensures inserted <==> Mint(old(rows), t, now, ttl, pruned).Some?
      ensures rows == if inserted then Mint(old(rows), t, now, ttl, pruned).value else old(rows)
      ensures inserted ==> rows[t] == Pending(now, now + ttl, None) && forall x :: Live(rows, x) <==> x == t
    {
      var saved := rows;
      if pruned { rows := PruneExpired(rows, now); }
      rows := ConsumeAll(rows, now);
      inserted := t !in rows;
      if inserted { rows := rows[t := Pending(now, now + ttl, None)]; } else { rows := saved; }
    }

    /** The token part of `POST /pair` when nothing comes between its statements. */
    method ClaimToken(paired: bool, t: Token, now: int) returns (r: TokenOutcome)
      modifies this
      ensures r == Proceed(true) <==> !paired && Live(old(rows), t) && old(rows)[t].expiresAt >= now
      ensures rows == if r == Proceed(true) then MarkConsumed(old(rows), t, now) else old(rows)
      ensures r == Proceed(true) ==> rows[t] == Pending(old(rows)[t].createdAt, old(rows)[t].expiresAt, Some(now))
      ensures paired <==> r == Proceed(false)
      ensures r.Unknown? <==> !paired && t !in old(rows)
      ensures r.Expired? <==> !paired && t in old(rows) && old(rows)[t].expiresAt < now
    {
      if paired { return Proceed(false); }
      if t !in rows { return Unknown; }
      if rows[t].expiresAt < now { return Expired; }
      if rows[t].consumedAt.Some? { return AlreadyUsed; }
      rows := rows[t := rows[t].(consumedAt := Some(now))];
      r := Proceed(true);
    }
  }
}
