/** Why the media store's premise is needed: each way of breaking it can lose a blob that was acknowledged. */
module MediaLoss {
  import opened Basics
  import opened MediaPaths
  import opened MediaStore

  /**
   * An undisturbed push within the caps: acknowledged, its row sized, its bytes in place and no temporary file left.
   */
  lemma PushLands(S: State, b: Blob, body: Bytes) returns (S1: State, S2: State, S3: State, S4: State)
    requires !S.v.booting && S.v.writer.None? && ValidHash(b.hash) && b.owner in S.d.owners && !Idempotent(S.d, b, body)
    ensures Enabled(S, Begin(b, body, false)) && S1 == Next(S, Begin(b, body, false))
    ensures Enabled(S1, FinishWrite) && S2 == Next(S1, FinishWrite)
    ensures Enabled(S2, Rename) && S3 == Next(S2, Rename)
    ensures Enabled(S3, Commit) && S4 == Next(S3, Commit)
    ensures b in S4.h.acked && S4.v == S.v && S4.d.owners == S.d.owners
    ensures S4.d.rows == S.d.rows[b := |body|] && S4.d.files == (S.d.files - {TmpPath(b)})[BlobPath(b) := body]
  {
    TmpIsNoBlob(b, b);
    S1 := Next(S, Begin(b, body, false));
    S2 := Next(S1, FinishWrite);
    S3 := Next(S2, Rename);
    S4 := Next(S3, Commit);
    assert S.d.files[TmpPath(b) := body] - {TmpPath(b)} == S.d.files - {TmpPath(b)};
  }

  lemma NotStored(S: State, b: Blob, body: Bytes)
    requires Inv(S) && !S.v.booting && Enabled(S, Begin(b, body, false)) && BlobPath(b) in S.v.unlinks
    ensures b !in S.d.rows && S.v.writer.None? && ValidHash(b.hash)
  {
    var gone: Blob :| ValidHash(gone.hash) && BlobPath(b) == BlobPath(gone) && gone !in S.d.rows;
    PathsDiffer(b, gone);
  }

  lemma UnlinkTakes(S: State, b: Blob)
    requires !S.v.booting && ValidHash(b.hash) && BlobPath(b) in S.v.unlinks && b in S.d.rows
    ensures Enabled(S, Unlink(BlobPath(b), false))
    ensures var S' := Next(S, Unlink(BlobPath(b), false));
            S'.h == S.h && S'.d.rows == S.d.rows && BlobPath(b) !in S'.d.files && !Inv(S')
  {
    var S' := Next(S, Unlink(BlobPath(b), false));
    assert !Backed(S'.d, S'.h, b);
  }

  function PushThenUnlink(b: Blob, body: Bytes): seq<Step>
    requires ValidHash(b.hash)
  {
    [Begin(b, body, false), FinishWrite, Rename, Commit, Unlink(BlobPath(b), false)]
  }

  /**
   * Whenever a push of a paired owner's blob begins with an unlink of its path still to do, there is a way on that
   * acknowledges the push and then removes its file: the row stays, pointing at nothing.
   */
  lemma OverlapLoses(S: State, b: Blob, body: Bytes)
    requires Inv(S) && !S.v.booting && Enabled(S, Begin(b, body, false)) && b.owner in S.d.owners
    requires BlobPath(b) in S.v.unlinks
    ensures Runs(S, PushThenUnlink(b, body))
    ensures var S' := Run(S, PushThenUnlink(b, body));
            && b in S'.h.acked
            && b in S'.d.rows
            && BlobPath(b) !in S'.d.files
            && !Inv(S')
  {
    hide Next, Enabled, Runs, Run, Inv;
    NotStored(S, b, body);
    var S1, S2, S3, S4 := PushLands(S, b, body);
    UnlinkTakes(S4, b);
    FiveSteps(S, PushThenUnlink(b, body), S1, S2, S3, S4, Next(S4, Unlink(BlobPath(b), false)));
  }

  lemma FiveSteps(S: State, steps: seq<Step>, S1: State, S2: State, S3: State, S4: State, S5: State)
    requires |steps| == 5
    requires Enabled(S, steps[0]) && S1 == Next(S, steps[0]) && Enabled(S1, steps[1]) && S2 == Next(S1, steps[1])
    requires Enabled(S2, steps[2]) && S3 == Next(S2, steps[2]) && Enabled(S3, steps[3]) && S4 == Next(S3, steps[3])
    requires Enabled(S4, steps[4]) && S5 == Next(S4, steps[4])
    ensures Runs(S, steps) && Run(S, steps) == S5
  {
    hide Enabled, Next;
    assert [steps[4]][1..] == [] && Runs(S5, []);
    assert Runs(S4, [steps[4]]) && Run(S4, [steps[4]]) == S5;
    assert steps[4..] == [steps[4]] && steps[3..][1..] == steps[4..] && steps[2..][1..] == steps[3..];
    assert steps[1..][1..] == steps[2..];
    assert Runs(S3, steps[3..]) && Run(S3, steps[3..]) == S5;
    assert Runs(S2, steps[2..]) && Run(S2, steps[2..]) == S5;
    assert Runs(S1, steps[1..]) && Run(S1, steps[1..]) == S5;
  }

  lemma {:induction false} RunsJoin(S: State, a: seq<Step>, b: seq<Step>)
    requires Runs(S, a) && Runs(Run(S, a), b)
    ensures Runs(S, a + b) && Run(S, a + b) == Run(Run(S, a), b)
    decreases |a|
  {
    hide Enabled, Next;
    if a == [] {
      assert a + b == b;
    } else {
      RunsJoin(Next(S, a[0]), a[1..], b);
      assert (a + b)[0] == a[0] && (a + b)[1..] == a[1..] + b;
    }
  }

  lemma PairFirst(o: Owner) returns (S: State)
    ensures Runs(Start(map[]), [Boot, Pair(o)]) && S == Run(Start(map[]), [Boot, Pair(o)]) && Inv(S)
    ensures !S.v.booting && S.v.writer.None? && S.v.unpairing.None? && S.v.unlinks == multiset{}
    ensures S.v.clearing == multiset{}
    ensures S.d.rows == map[] && o in S.d.owners
  {
    hide Runs, Run;
    StepKeeps(Start(map[]), Boot);
    StepKeeps(Next(Start(map[]), Boot), Pair(o));
    TwoSteps(Start(map[]), Boot, Pair(o));
    S := Next(Next(Start(map[]), Boot), Pair(o));
  }

  lemma DeleteLeavesUnlink(S: State, b: Blob)
    requires Inv(S) && !S.v.booting && S.v.writer.None? && b in S.d.rows && ValidHash(b.hash)
    ensures Enabled(S, Delete(b.owner, [b.hash]))
    ensures var S' := Next(S, Delete(b.owner, [b.hash]));
            Inv(S') && !S'.v.booting && S'.v.writer.None? && S'.d.owners == S.d.owners && BlobPath(b) in S'.v.unlinks
  {
    DeleteKeeps(S, b.owner, [b.hash]);
    assert b in Doomed(S.d, b.owner, [b.hash]);
    PathsOfDoomed(S.d, b.owner, [b.hash], BlobPath(b));
  }

  /** Pair, push, delete: the commit is done and the unlink is still to come. */
  lemma DeletedNotUnlinked(o: Owner, hash: string, body: Bytes) returns (S: State, steps: seq<Step>)
    requires ValidHash(hash)
    ensures Runs(Start(map[]), steps) && S == Run(Start(map[]), steps) && Inv(S)
    ensures !S.v.booting && S.v.writer.None? && o in S.d.owners && BlobPath(Blob(o, hash)) in S.v.unlinks
  {
    hide Runs, Run, Inv, Next, Enabled;
    var b := Blob(o, hash);
    var P := PairFirst(o);
    var S1, S2, S3, S4 := PushLands(P, b, body);
    PushKeeps(P, b, body, S1, S2, S3, S4);
    DeleteLeavesUnlink(S4, b);
    S := Next(S4, Delete(o, [hash]));
    var more := [Begin(b, body, false), FinishWrite, Rename, Commit, Delete(o, [hash])];
    FiveSteps(P, more, S1, S2, S3, S4, S);
    steps := [Boot, Pair(o)] + more;
    RunsJoin(Start(map[]), [Boot, Pair(o)], more);
  }

  lemma TwoSteps(S: State, a: Step, b: Step)
    requires Enabled(S, a) && Enabled(Next(S, a), b)
    ensures Runs(S, [a, b]) && Run(S, [a, b]) == Next(Next(S, a), b)
  {
    hide Enabled, Next;
    assert [a, b][1..] == [b] && [b][1..] == [];
    assert Runs(Next(Next(S, a), b), []);
    assert Runs(Next(S, a), [b]) && Run(Next(S, a), [b]) == Next(Next(S, a), b);
  }

  lemma PushKeeps(S: State, b: Blob, body: Bytes, S1: State, S2: State, S3: State, S4: State)
    requires Inv(S) && Enabled(S, Begin(b, body, false)) && Apart(S, Begin(b, body, false))
    requires S1 == Next(S, Begin(b, body, false))
    requires Enabled(S1, FinishWrite) && S2 == Next(S1, FinishWrite) && Enabled(S2, Rename) && S3 == Next(S2, Rename)
    requires Enabled(S3, Commit) && S4 == Next(S3, Commit)
    ensures Inv(S4)
  {
    hide Inv, Enabled, Next;
    StepKeeps(S, Begin(b, body, false));
    StepKeeps(S1, FinishWrite);
    StepKeeps(S2, Rename);
    StepKeeps(S3, Commit);
  }

  /** So for every owner and hash there is a run from first boot that ends with an acknowledged blob lost. */
  lemma OverlapCanLose(o: Owner, hash: string, body: Bytes) returns (steps: seq<Step>)
    requires ValidHash(hash)
    ensures Runs(Start(map[]), steps)
    ensures var S := Run(Start(map[]), steps); var b := Blob(o, hash);
            && b in S.h.acked
            && b in S.d.rows
            && BlobPath(b) !in S.d.files
  {
    var b := Blob(o, hash);
    var S, before := DeletedNotUnlinked(o, hash, body);
    hide Inv, Next, Runs, Run;
    OverlapLoses(S, b, body);
    steps := before + PushThenUnlink(b, body);
    RunsJoin(Start(map[]), before, PushThenUnlink(b, body));
  }

  // ---- a directory that is still being cleared -------------------------------------------

  function PairPushClear(b: Blob, body: Bytes): seq<Step>
    requires ValidHash(b.hash)
  {
    [Pair(b.owner)] + [Begin(b, body, false), FinishWrite, Rename, Commit, Clear(b.owner, BlobPath(b))]
  }

  /**
   * Whenever an owner's directory is still being cleared and the pairing lock is free, there is a way on that pairs the
   * owner again, acknowledges a push and then removes its file.
   */
  lemma ClearingLoses(S: State, b: Blob, body: Bytes)
    requires Inv(S) && !S.v.booting && S.v.writer.None? && S.v.unpairing.None? && ValidHash(b.hash)
    requires b.owner in S.v.clearing
    ensures Runs(S, PairPushClear(b, body))
    ensures var S' := Run(S, PairPushClear(b, body));
            b in S'.h.acked && b in S'.d.rows && BlobPath(b) !in S'.d.files && !Inv(S')
  {
    hide Next, Enabled, Runs, Run, Inv;
    var P := PairAgain(S, b);
    var S1, S2, S3, S4 := PushLands(P, b, body);
    ClearTakes(S4, b);
    var more := [Begin(b, body, false), FinishWrite, Rename, Commit, Clear(b.owner, BlobPath(b))];
    FiveSteps(P, more, S1, S2, S3, S4, Next(S4, Clear(b.owner, BlobPath(b))));
    OneStep(S, Pair(b.owner));
    RunsJoin(S, [Pair(b.owner)], more);
  }

  lemma PairAgain(S: State, b: Blob) returns (P: State)
    requires Inv(S) && !S.v.booting && S.v.writer.None? && S.v.unpairing.None? && b.owner in S.v.clearing
    ensures Enabled(S, Pair(b.owner)) && P == Next(S, Pair(b.owner))
    ensures !P.v.booting && P.v.writer.None? && b.owner in P.d.owners && b.owner in P.v.clearing && b !in P.d.rows
  {
    P := Next(S, Pair(b.owner));
    assert b in S.d.rows ==> Backed(S.d, S.h, b);
  }

  lemma OneStep(S: State, a: Step)
    requires Enabled(S, a)
    ensures Runs(S, [a]) && Run(S, [a]) == Next(S, a)
  {
    hide Enabled, Next;
    assert [a][1..] == [] && Runs(Next(S, a), []);
  }

  lemma ClearTakes(S: State, b: Blob)
    requires !S.v.booting && ValidHash(b.hash) && b.owner in S.v.clearing && b in S.d.rows
    ensures Enabled(S, Clear(b.owner, BlobPath(b)))
    ensures var S' := Next(S, Clear(b.owner, BlobPath(b)));
            S'.h == S.h && S'.d.rows == S.d.rows && BlobPath(b) !in S'.d.files && !Inv(S')
  {
    var S' := Next(S, Clear(b.owner, BlobPath(b)));
    assert !Backed(S'.d, S'.h, b);
  }

  /** Pair, unpair, and the unpair's request is dropped: the lock is free and the directory is still being cleared. */
  lemma UnpairDropped(o: Owner) returns (S: State, steps: seq<Step>)
    ensures Runs(Start(map[]), steps) && S == Run(Start(map[]), steps) && Inv(S)
    ensures !S.v.booting && S.v.writer.None? && S.v.unpairing.None? && o in S.v.clearing
  {
    var P := PairFirst(o);
    StepKeeps(P, Unpair(o));
    StepKeeps(Next(P, Unpair(o)), Drop);
    S := Next(Next(P, Unpair(o)), Drop);
    hide Runs, Run, Inv, Next, Enabled;
    TwoSteps(P, Unpair(o), Drop);
    steps := [Boot, Pair(o)] + [Unpair(o), Drop];
    RunsJoin(Start(map[]), [Boot, Pair(o)], [Unpair(o), Drop]);
  }

  /**
   * So for every owner and hash there is a run from first boot, without a crash or a delete, that loses an acknowledged
   * blob.
   */
  lemma ClearingCanLose(o: Owner, hash: string, body: Bytes) returns (steps: seq<Step>)
    requires ValidHash(hash)
    ensures Runs(Start(map[]), steps)
    ensures var S := Run(Start(map[]), steps); var b := Blob(o, hash);
            b in S.h.acked && b in S.d.rows && BlobPath(b) !in S.d.files
  {
    var b := Blob(o, hash);
    var S, before := UnpairDropped(o);
    hide Inv, Next, Runs, Run;
    ClearingLoses(S, b, body);
    steps := before + PairPushClear(b, body);
    RunsJoin(Start(map[]), before, PairPushClear(b, body));
  }
}
