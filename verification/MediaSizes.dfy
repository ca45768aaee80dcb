/** When the size a row records is the length of its file. */
module MediaSizes {
  import opened Basics
  import opened MediaPaths
  import opened MediaStore
  import opened MediaLoss

  /** The push that has put its file in place and not recorded it yet. */
  predicate Unrecorded(S: State, b: Blob) {
    S.v.writer.Some? && S.v.writer.value.stage.Renamed? && S.v.writer.value.blob == b
  }

  ghost predicate SizeMatches(d: Durable, b: Blob) {
    b in d.rows && ValidHash(b.hash) && BlobPath(b) in d.files && d.rows[b] == |d.files[BlobPath(b)]|
  }

  ghost predicate Sized(S: State) { forall b :: b in S.d.rows ==> SizeMatches(S.d, b) || Unrecorded(S, b) }

  /** A replacement of another length is cut off between its rename and its commit. */
  predicate Interrupts(S: State, step: Step) {
    && (step.Abort? || step.Crash?)
    && S.v.writer.Some? && S.v.writer.value.stage.Renamed? && S.v.writer.value.blob in S.d.rows
    && S.d.rows[S.v.writer.value.blob] != |S.v.writer.value.body|
  }

  /** Under the invariant a row matches exactly when it records the length of what last landed. */
  lemma MatchesLanded(S: State, b: Blob)
    requires Inv(S) && b in S.d.rows
    ensures b in S.h.landed && (SizeMatches(S.d, b) <==> S.d.rows[b] == |S.h.landed[b]|)
  {
    assert Backed(S.d, S.h, b);
  }

  /** A step that is no such interruption leaves every row sized; the interruption leaves the replaced one wrong. */
  lemma SizesKeptExactly(S: State, step: Step)
    requires Inv(S) && Enabled(S, step) && Apart(S, step) && Sized(S)
    ensures Sized(Next(S, step)) <==> !Interrupts(S, step)
  {
    hide Inv;
    var S' := Next(S, step);
    StepKeeps(S, step);
    if Interrupts(S, step) {
      InterruptLeavesWrong(S, step);
    } else {
      forall b | b in S'.d.rows ensures SizeMatches(S'.d, b) || Unrecorded(S', b) { StaysSized(S, step, b); }
    }
  }

  lemma InterruptLeavesWrong(S: State, step: Step)
    requires Inv(S) && Enabled(S, step) && Interrupts(S, step) && Inv(Next(S, step))
    ensures var b := S.v.writer.value.blob;
            && b in Next(S, step).d.rows
            && !SizeMatches(Next(S, step).d, b)
            && !Sized(Next(S, step))
  {
    var b := S.v.writer.value.blob;
    WriterLanded(S);
    hide Inv;
    MatchesLanded(Next(S, step), b);
  }

  lemma WriterLanded(S: State)
    requires Inv(S) && S.v.writer.Some? && S.v.writer.value.stage.Renamed?
    ensures S.v.writer.value.blob in S.h.landed && S.h.landed[S.v.writer.value.blob] == S.v.writer.value.body
  {
  }

  lemma StaysSized(S: State, step: Step, b: Blob)
    requires Inv(S) && Enabled(S, step) && Sized(S) && !Interrupts(S, step) && Inv(Next(S, step))
    requires b in Next(S, step).d.rows
    ensures SizeMatches(Next(S, step).d, b) || Unrecorded(Next(S, step), b)
  {
    hide Inv, Swept;
    var S' := Next(S, step);
    MatchesLanded(S', b);
    if S.v.writer.Some? && S.v.writer.value.stage.Renamed? { WriterLanded(S); }
    if step.Sweep? { SweepSame(S, step); }
    if b in S.d.rows { MatchesLanded(S, b); }
  }

  lemma SweepSame(S: State, step: Step)
    requires Inv(S) && Enabled(S, step) && step.Sweep?
    ensures step.after.rows == S.d.rows
  {
    SweepKeeps(S, step.after);
  }

  // ---- runs -----------------------------------------------------------------------------------

  ghost predicate Uninterrupted(S: State, steps: seq<Step>)
    requires Runs(S, steps)
    decreases |steps|
  {
    steps == [] || (!Interrupts(S, steps[0]) && Uninterrupted(Next(S, steps[0]), steps[1..]))
  }

  lemma {:induction false} RunSized(S: State, steps: seq<Step>)
    requires Inv(S) && Sized(S) && Runs(S, steps) && NoOverlap(S, steps) && Uninterrupted(S, steps)
    ensures Sized(Run(S, steps))
    decreases |steps|
  {
    hide Inv, Enabled, Next, Apart, Sized, Interrupts;
    if steps != [] {
      StepKeeps(S, steps[0]);
      SizesKeptExactly(S, steps[0]);
      RunSized(Next(S, steps[0]), steps[1..]);
    }
  }

  /**
   * Along every run from first boot in which no replacement is cut off, every row is sized unless its push is at that
   * very point.
   */
  lemma SizesMatch(files: map<Path, Bytes>, steps: seq<Step>)
    requires Runs(Start(files), steps) && NoOverlap(Start(files), steps) && Uninterrupted(Start(files), steps)
    ensures var S := Run(Start(files), steps); forall b :: b in S.d.rows ==> SizeMatches(S.d, b) || Unrecorded(S, b)
  {
    hide Runs, Run, NoOverlap, Uninterrupted;
    RunSized(Start(files), steps);
  }

  // ---- a crash at that point ------------------------------------------------------------------------

  /** A replacement up to its rename, and the crash. */
  function CutOff(b: Blob, body: Bytes): seq<Step> { [Begin(b, body, false), FinishWrite] + [Rename, Crash] }

  lemma CutOffLands(S: State, b: Blob, body: Bytes)
    requires !S.v.booting && S.v.writer.None? && ValidHash(b.hash) && b in S.d.rows && S.d.rows[b] != |body|
    ensures Runs(S, CutOff(b, body))
    ensures var S' := Run(S, CutOff(b, body));
            S'.d.rows == S.d.rows && BlobPath(b) in S'.d.files && S'.d.files[BlobPath(b)] == body
  {
    TmpIsNoBlob(b, b);
    var S1 := Next(S, Begin(b, body, false));
    var S2 := Next(S1, FinishWrite);
    var S3 := Next(S2, Rename);
    assert S3.d.files[BlobPath(b)] == body && S3.d.rows == S.d.rows;
    hide Runs, Run;
    TwoSteps(S, Begin(b, body, false), FinishWrite);
    TwoSteps(S2, Rename, Crash);
    RunsJoin(S, [Begin(b, body, false), FinishWrite], [Rename, Crash]);
  }

  /**
   * For every blob and every two bodies of different lengths: a run from first boot whose row records the one and whose
   * file is the other.
   */
  lemma CrashLeavesOldSize(o: Owner, hash: string, first: Bytes, second: Bytes) returns (steps: seq<Step>)
    requires ValidHash(hash) && |first| != |second|
    ensures Runs(Start(map[]), steps)
    ensures var S := Run(Start(map[]), steps); var b := Blob(o, hash);
            b in S.d.rows && S.d.rows[b] == |first| && BlobPath(b) in S.d.files && S.d.files[BlobPath(b)] == second
  {
    hide Runs, Run, Inv, Next, Enabled;
    var b := Blob(o, hash);
    var P := PairFirst(o);
    var S1, S2, S3, S4 := PushLands(P, b, first);
    TwoSteps(P, Begin(b, first, false), FinishWrite);
    TwoSteps(S2, Rename, Commit);
    var push := [Begin(b, first, false), FinishWrite] + [Rename, Commit];
    RunsJoin(P, [Begin(b, first, false), FinishWrite], [Rename, Commit]);
    CutOffLands(S4, b, second);
    RunsJoin(P, push, CutOff(b, second));
    steps := [Boot, Pair(o)] + (push + CutOff(b, second));
    RunsJoin(Start(map[]), [Boot, Pair(o)], push + CutOff(b, second));
  }
}
