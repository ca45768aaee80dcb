/**
 * Blobs as files and rows, with a crash allowed between any two steps. A push takes the write lock, writes a temporary
 * file, renames it and commits its row; a delete commits and unlinks afterwards; an unpair commits and then clears the
 * owner's directory; a crash forgets every request and the boot sweep follows.
 */
module MediaStore {
  import opened Basics
  import opened MediaPaths

  type Bytes = seq<byte>

  datatype Stage = Writing | Written | Renamed

  /** The request that holds the write lock. */
  datatype Push = Push(blob: Blob, body: Bytes, stage: Stage)

  /** What a restart finds: the media directory and the committed tables. */
  datatype Durable = Durable(files: map<Path, Bytes>, owners: set<Owner>, rows: map<Blob, nat>)

  /**
   * What a crash forgets: the holder of the write lock, unlinks still to do after a commit, the unpair that holds the
   * pairing lock, and the owners whose directories are still being cleared. The clearing runs on its own, so an unpair
   * whose request is dropped gives its lock back and goes on clearing.
   */
  datatype Volatile = Volatile(
    writer: Option<Push>,
    unlinks: multiset<Path>,
    unpairing: Option<Owner>,
    clearing: multiset<Owner>,
    booting: bool)

  /**
   * Every push that began, the body that last landed under each hash, and the blobs acknowledged and not deleted since.
   */
  datatype History = History(begun: set<(Blob, Bytes)>, landed: map<Blob, Bytes>, acked: set<Blob>)

  datatype State = State(d: Durable, v: Volatile, h: History)

  datatype Step =
    | Begin(blob: Blob, body: Bytes, overCap: bool)
    | Write(n: nat)
    | FinishWrite
    | Rename
    | Commit
    | Abort
    | Delete(owner: Owner, hashes: seq<string>)
    | Unlink(path: Path, fails: bool)
    | Pair(owner: Owner)
    | Unpair(owner: Owner)
    | Drop
    | Clear(owner: Owner, path: Path)
    | ClearDone(owner: Owner, awaited: bool)
    | Crash
    | Sweep(after: Durable)
    | Boot

  // ---- steps -----------------------------------------------------------------------

  /** The row and the file both have the size of the body. */
  predicate Idempotent(d: Durable, b: Blob, body: Bytes)
    requires ValidHash(b.hash)
  {
    b in d.rows && d.rows[b] == |body| && BlobPath(b) in d.files && |d.files[BlobPath(b)]| == |body|
  }

  /** What a boot sweep may have done, complete or not: dropped files no row names, and rows whose file is missing. */
  ghost predicate Swept(d: Durable, d': Durable) {
    && d'.owners == d.owners
    && (forall p :: p in d'.files ==> p in d.files && d'.files[p] == d.files[p])
    && (forall b :: b in d'.rows ==> b in d.rows && d'.rows[b] == d.rows[b])
    && (forall b :: b in d.rows && ValidHash(b.hash) && BlobPath(b) in d.files ==>
          b in d'.rows && BlobPath(b) in d'.files)
  }

  ghost predicate Enabled(S: State, step: Step) {
    if S.v.booting then
      match step
      case Sweep(after) => Swept(S.d, after)
      case Boot => true
      case Crash => true
      case _ => false
    else
      match step
      case Begin(b, _, _) => S.v.writer.None? && ValidHash(b.hash)
      case Write(n) => S.v.writer.Some? && S.v.writer.value.stage.Writing? && n <= |S.v.writer.value.body|
                       && ValidHash(S.v.writer.value.blob.hash)
      case FinishWrite => S.v.writer.Some? && S.v.writer.value.stage.Writing? && ValidHash(S.v.writer.value.blob.hash)
      case Rename => S.v.writer.Some? && S.v.writer.value.stage.Written? && ValidHash(S.v.writer.value.blob.hash)
                     && TmpPath(S.v.writer.value.blob) in S.d.files
      case Commit =>
        // the row's foreign key
        S.v.writer.Some? && S.v.writer.value.stage.Renamed? && S.v.writer.value.blob.owner in S.d.owners
      case Abort => S.v.writer.Some?
      case Delete(_, hashes) => S.v.writer.None? && forall i :: 0 <= i < |hashes| ==> ValidHash(hashes[i])
      case Unlink(p, _) => p in S.v.unlinks
      case Pair(_) => S.v.writer.None? && S.v.unpairing.None?
      case Unpair(_) => S.v.writer.None? && S.v.unpairing.None?
      case Drop => S.v.unpairing.Some?
      case Clear(o, p) => o in S.v.clearing && p != [] && p[0] == HexEncode(o)
      case ClearDone(o, awaited) =>
        if awaited then S.v.unpairing == Some(o) && o in S.v.clearing
        else S.v.clearing[o] > if S.v.unpairing == Some(o) then 1 else 0
      case Crash => true
      case Sweep(_) => false
      case Boot => false
  }

  /** The rows a delete removes, and the paths it then unlinks. */
  function Doomed(d: Durable, owner: Owner, hashes: seq<string>): set<Blob> {
    set b | b in d.rows && b.owner == owner && b.hash in hashes
  }

  function PathsOf(d: Durable, owner: Owner, hashes: seq<string>): multiset<Path>
    requires forall i :: 0 <= i < |hashes| ==> ValidHash(hashes[i])
    decreases |hashes|
  {
    if hashes == [] then multiset{}
    else
      var b := Blob(owner, hashes[0]);
      if b in d.rows
      then multiset{BlobPath(b)} + PathsOf(d.(rows := d.rows - {b}), owner, hashes[1..])
      else PathsOf(d, owner, hashes[1..])
  }

  function Held(S: State, w: Push): State { S.(v := S.v.(writer := Some(w))) }

  function Next(S: State, step: Step): State
    requires Enabled(S, step)
  {
    match step
    case Begin(b, body, overCap) =>
      if Idempotent(S.d, b, body) then S.(h := S.h.(begun := S.h.begun + {(b, body)}, acked := S.h.acked + {b}))
      else if overCap then S
      else Held(S, Push(b, body, Writing)).(h := S.h.(begun := S.h.begun + {(b, body)}))
    case Write(n) =>
      var w := S.v.writer.value;
      S.(d := S.d.(files := S.d.files[TmpPath(w.blob) := w.body[..n]]))
    case FinishWrite =>
      var w := S.v.writer.value;
      Held(S, w.(stage := Written)).(d := S.d.(files := S.d.files[TmpPath(w.blob) := w.body]))
    case Rename =>
      var w := S.v.writer.value;
      Held(S, w.(stage := Renamed)).(
        d := S.d.(files := (S.d.files - {TmpPath(w.blob)})[BlobPath(w.blob) := S.d.files[TmpPath(w.blob)]]),
        h := S.h.(landed := S.h.landed[w.blob := w.body]))
    case Commit =>
      var w := S.v.writer.value;
      State(S.d.(rows := S.d.rows[w.blob := |w.body|]), S.v.(writer := None), S.h.(acked := S.h.acked + {w.blob}))
    case Abort => S.(v := S.v.(writer := None))
    case Delete(owner, hashes) =>
      State(S.d.(rows := S.d.rows - Doomed(S.d, owner, hashes)),
            S.v.(unlinks := S.v.unlinks + PathsOf(S.d, owner, hashes)),
            S.h.(acked := S.h.acked - Doomed(S.d, owner, hashes)))
    case Unlink(p, fails) =>
      State(if fails then S.d else S.d.(files := S.d.files - {p}), S.v.(unlinks := S.v.unlinks - multiset{p}), S.h)
    case Pair(owner) => S.(d := S.d.(owners := S.d.owners + {owner}))
    case Unpair(owner) =>
      State(S.d.(owners := S.d.owners - {owner}, rows := map b | b in S.d.rows && b.owner != owner :: S.d.rows[b]),
            S.v.(unpairing := Some(owner), clearing := S.v.clearing + multiset{owner}),
            S.h.(acked := set b | b in S.h.acked && b.owner != owner))
    case Drop => S.(v := S.v.(unpairing := None))
    case Clear(_, p) => S.(d := S.d.(files := S.d.files - {p}))
    case ClearDone(o, awaited) =>
      S.(v := S.v.(unpairing := if awaited then None else S.v.unpairing, clearing := S.v.clearing - multiset{o}))
    case Crash => S.(v := Volatile(None, multiset{}, None, multiset{}, true))
    case Sweep(after) => S.(d := after)
    case Boot => S.(v := S.v.(booting := false))
  }

  // ---- the invariant --------------------------------------------------------------------

  /** A row's file is there and holds, whole, the body that last landed under its hash. */
  ghost predicate Backed(d: Durable, h: History, b: Blob) {
    && b.owner in d.owners && ValidHash(b.hash)
    && b in h.landed && BlobPath(b) in d.files && d.files[BlobPath(b)] == h.landed[b]
  }

  ghost predicate RowsBacked(d: Durable, h: History) {
    && (forall b :: b in d.rows ==> Backed(d, h, b))
    && (forall b :: b in h.landed ==> (b, h.landed[b]) in h.begun)
    && h.acked <= d.rows.Keys
  }

  /** What the lock holder can count on at each stage. */
  ghost predicate WriterOk(d: Durable, h: History, w: Push) {
    && ValidHash(w.blob.hash) && (w.blob, w.body) in h.begun
    && (w.stage.Written? && TmpPath(w.blob) in d.files ==> d.files[TmpPath(w.blob)] == w.body)
    && (w.stage.Renamed? ==> w.blob in h.landed && h.landed[w.blob] == w.body)
    && (w.stage.Renamed? && w.blob.owner in d.owners ==> Backed(d, h, w.blob))
  }

  /** No pending unlink names a stored blob or one being pushed. */
  ghost predicate UnlinksSafe(S: State) {
    forall p :: p in S.v.unlinks ==> exists b: Blob :: ValidHash(b.hash) && p == BlobPath(b) && b !in S.d.rows
                                                       && (S.v.writer.Some? ==> S.v.writer.value.blob != b)
  }

  ghost predicate Inv(S: State) {
    && RowsBacked(S.d, S.h)
    && (S.v.writer.Some? ==> WriterOk(S.d, S.h, S.v.writer.value))
    && UnlinksSafe(S)
    && (forall o :: o in S.v.clearing ==> o !in S.d.owners)
    && (S.v.booting ==> S.v.writer.None? && S.v.unlinks == multiset{} && S.v.clearing == multiset{})
  }

  /**
   * The premise: no push begins while an unlink of its path is to do, and nobody is paired whose directory is still
   * being cleared.
   */
  ghost predicate Apart(S: State, step: Step) {
    && (step.Begin? && ValidHash(step.blob.hash) ==> BlobPath(step.blob) !in S.v.unlinks)
    && (step.Pair? ==> step.owner !in S.v.clearing)
  }

  // ---- every step keeps it ------------------------------------------------------------------

  lemma PathKept(d: Durable, h: History, files': map<Path, Bytes>)
    requires RowsBacked(d, h)
    requires forall b :: b in d.rows && ValidHash(b.hash) && BlobPath(b) in d.files ==>
               BlobPath(b) in files' && files'[BlobPath(b)] == d.files[BlobPath(b)]
    ensures RowsBacked(d.(files := files'), h)
  {
    forall b | b in d.rows ensures Backed(d.(files := files'), h, b) { assert Backed(d, h, b); }
  }

  lemma TmpWriteKeeps(S: State, w: Push, bytes: Bytes)
    requires Inv(S) && ValidHash(w.blob.hash)
    ensures RowsBacked(S.d.(files := S.d.files[TmpPath(w.blob) := bytes]), S.h)
  {
    forall b | b in S.d.rows && ValidHash(b.hash) ensures BlobPath(b) != TmpPath(w.blob) { TmpIsNoBlob(w.blob, b); }
    PathKept(S.d, S.h, S.d.files[TmpPath(w.blob) := bytes]);
  }

  lemma WriteKeeps(S: State, step: Step)
    requires Inv(S) && Enabled(S, step) && (step.Write? || step.FinishWrite?)
    ensures Inv(Next(S, step))
  {
    var w := S.v.writer.value;
    TmpWriteKeeps(S, w, if step.Write? then w.body[..step.n] else w.body);
    UnlinksKept(S, Next(S, step));
  }

  lemma UnlinksKept(S: State, S': State)
    requires UnlinksSafe(S) && S'.v.unlinks <= S.v.unlinks && S'.d.rows.Keys <= S.d.rows.Keys
    requires S'.v.writer.Some? ==> S.v.writer.Some? && S.v.writer.value.blob == S'.v.writer.value.blob
    ensures UnlinksSafe(S')
  {
    forall p | p in S'.v.unlinks
      ensures exists b: Blob :: ValidHash(b.hash) && p == BlobPath(b) && b !in S'.d.rows && (S'.v.writer.Some? ==>
                S'.v.writer.value.blob != b)
    {
      assert p in S.v.unlinks;
    }
  }

  lemma RenameKeeps(S: State)
    requires Inv(S) && Enabled(S, Rename)
    ensures Inv(Next(S, Rename))
  {
    var w := S.v.writer.value;
    var S' := Next(S, Rename);
    forall b | b in S.d.rows ensures Backed(S'.d, S'.h, b) {
      assert Backed(S.d, S.h, b);
      PathsDiffer(b, w.blob);
      TmpIsNoBlob(w.blob, b);
    }
    UnlinksKept(S, S');
  }

  lemma CommitKeeps(S: State)
    requires Inv(S) && Enabled(S, Commit)
    ensures Inv(Next(S, Commit))
  {
    var w := S.v.writer.value;
    var S' := Next(S, Commit);
    forall b | b in S'.d.rows ensures Backed(S'.d, S'.h, b) { assert b != w.blob ==> Backed(S.d, S.h, b); }
    forall p | p in S.v.unlinks ensures exists b: Blob :: ValidHash(b.hash) && p == BlobPath(b) && b !in S'.d.rows {
      var b: Blob :| ValidHash(b.hash) && p == BlobPath(b) && b !in S.d.rows && w.blob != b;
    }
  }

  lemma {:induction false} PathsOfDoomed(d: Durable, owner: Owner, hashes: seq<string>, p: Path)
    requires forall i :: 0 <= i < |hashes| ==> ValidHash(hashes[i])
    ensures p in PathsOf(d, owner, hashes) <==>
              exists b :: b in Doomed(d, owner, hashes) && ValidHash(b.hash) && p == BlobPath(b)
    ensures PathsOf(d, owner, hashes)[p] <= 1
    decreases |hashes|
  {
    if hashes != [] {
      var b, rest := Blob(owner, hashes[0]), hashes[1..];
      assert hashes == [hashes[0]] + rest;
      var d' := if b in d.rows then d.(rows := d.rows - {b}) else d;
      PathsOfDoomed(d', owner, rest, p);
      if b in d.rows {
        assert Doomed(d, owner, hashes) == Doomed(d', owner, rest) + {b};
        forall c | c in Doomed(d', owner, rest) && ValidHash(c.hash)
          ensures BlobPath(c) != BlobPath(b)
        {
          PathsDiffer(b, c);
        }
      } else {
        assert Doomed(d, owner, hashes) == Doomed(d', owner, rest);
      }
    }
  }

  lemma DeleteKeeps(S: State, owner: Owner, hashes: seq<string>)
    requires Inv(S) && Enabled(S, Delete(owner, hashes))
    ensures Inv(Next(S, Delete(owner, hashes)))
  {
    var S' := Next(S, Delete(owner, hashes));
    forall b | b in S'.d.rows ensures Backed(S'.d, S'.h, b) { assert Backed(S.d, S.h, b); }
    forall p | p in S'.v.unlinks ensures exists b: Blob :: ValidHash(b.hash) && p == BlobPath(b) && b !in S'.d.rows {
      if p in S.v.unlinks {
      } else {
        PathsOfDoomed(S.d, owner, hashes, p);
        var b :| b in Doomed(S.d, owner, hashes) && ValidHash(b.hash) && p == BlobPath(b);
      }
    }
  }

  lemma WriterUnharmed(d: Durable, h: History, w: Push, gone: Blob, files': map<Path, Bytes>)
    requires WriterOk(d, h, w) && ValidHash(gone.hash) && w.blob != gone
    requires files' == d.files || files' == d.files - {BlobPath(gone)}
    ensures WriterOk(d.(files := files'), h, w)
  {
    PathsDiffer(w.blob, gone);
    TmpIsNoBlob(w.blob, gone);
  }

  lemma UnlinkKeeps(S: State, p: Path, fails: bool)
    requires Inv(S) && Enabled(S, Unlink(p, fails))
    ensures Inv(Next(S, Unlink(p, fails)))
  {
    var S' := Next(S, Unlink(p, fails));
    var gone: Blob :| && ValidHash(gone.hash) && p == BlobPath(gone) && gone !in S.d.rows
                      && (S.v.writer.Some? ==> S.v.writer.value.blob != gone);
    forall b | b in S.d.rows ensures Backed(S'.d, S'.h, b) { assert Backed(S.d, S.h, b); PathsDiffer(b, gone); }
    if S.v.writer.Some? { WriterUnharmed(S.d, S.h, S.v.writer.value, gone, S'.d.files); }
    UnlinksKept(S, S');
  }

  lemma UnpairKeeps(S: State, step: Step)
    requires Inv(S) && Enabled(S, step) && (step.Unpair? || step.Pair?) && Apart(S, step)
    ensures Inv(Next(S, step))
  {
    var S' := Next(S, step);
    forall b | b in S'.d.rows ensures Backed(S'.d, S'.h, b) { assert Backed(S.d, S.h, b); }
    UnlinksKept(S, S');
  }

  lemma ClearKeeps(S: State, o: Owner, p: Path)
    requires Inv(S) && Enabled(S, Clear(o, p))
    ensures Inv(Next(S, Clear(o, p)))
  {
    var S' := Next(S, Clear(o, p));
    forall b | Backed(S.d, S.h, b) ensures Backed(S'.d, S'.h, b) {
      if p == BlobPath(b) { HexInjective(b.owner, o); }
    }
    UnlinksKept(S, S');
  }

  lemma SweepKeeps(S: State, after: Durable)
    requires Inv(S) && Enabled(S, Sweep(after))
    ensures Inv(Next(S, Sweep(after))) && after.rows == S.d.rows
  {
    forall b | b in S.d.rows ensures b in after.rows && Backed(after, S.h, b) { assert Backed(S.d, S.h, b); }
  }

  lemma BeginKeeps(S: State, step: Step)
    requires Inv(S) && Enabled(S, step) && step.Begin? && Apart(S, step)
    ensures Inv(Next(S, step))
  {
    var S' := Next(S, step);
    forall b | b in S'.d.rows ensures Backed(S'.d, S'.h, b) { assert Backed(S.d, S.h, b); }
    forall p | p in S'.v.unlinks
      ensures exists b: Blob :: ValidHash(b.hash) && p == BlobPath(b) && b !in S'.d.rows && (S'.v.writer.Some? ==>
                S'.v.writer.value.blob != b)
    {
      assert p in S.v.unlinks;
      var b: Blob :| ValidHash(b.hash) && p == BlobPath(b) && b !in S.d.rows;
    }
  }

  lemma StepKeeps(S: State, step: Step)
    requires Inv(S) && Enabled(S, step) && Apart(S, step)
    ensures Inv(Next(S, step))
  {
    match step
    case Begin(_, _, _) => BeginKeeps(S, step);
    case Write(_) => WriteKeeps(S, step);
    case FinishWrite => WriteKeeps(S, step);
    case Rename => RenameKeeps(S);
    case Commit => CommitKeeps(S);
    case Abort => UnlinksKept(S, Next(S, step));
    case Delete(owner, hashes) => DeleteKeeps(S, owner, hashes);
    case Unlink(p, fails) => UnlinkKeeps(S, p, fails);
    case Pair(_) => UnpairKeeps(S, step);
    case Unpair(_) => UnpairKeeps(S, step);
    case Drop => UnlinksKept(S, Next(S, step));
    case Clear(o, p) => ClearKeeps(S, o, p);
    case ClearDone(_, _) => UnlinksKept(S, Next(S, step));
    case Crash =>
    case Sweep(after) => SweepKeeps(S, after);
    case Boot => UnlinksKept(S, Next(S, step));
  }

  // ---- whole runs ---------------------------------------------------------------------------------

  /** First boot: nobody is paired, whatever lies in the media directory. */
  function Start(files: map<Path, Bytes>): State {
    State(Durable(files, {}, map[]), Volatile(None, multiset{}, None, multiset{}, true), History({}, map[], {}))
  }

  ghost predicate Runs(S: State, steps: seq<Step>)
    decreases |steps|
  {
    steps == [] || (Enabled(S, steps[0]) && Runs(Next(S, steps[0]), steps[1..]))
  }

  function Run(S: State, steps: seq<Step>): State
    requires Runs(S, steps)
    decreases |steps|
  {
    if steps == [] then S else Run(Next(S, steps[0]), steps[1..])
  }

  /** The premise along a whole run. */
  ghost predicate NoOverlap(S: State, steps: seq<Step>)
    requires Runs(S, steps)
    decreases |steps|
  {
    steps == [] || (Apart(S, steps[0]) && NoOverlap(Next(S, steps[0]), steps[1..]))
  }

  lemma {:induction false} RunKeeps(S: State, steps: seq<Step>)
    requires Inv(S) && Runs(S, steps) && NoOverlap(S, steps)
    ensures Inv(Run(S, steps))
    decreases |steps|
  {
    hide Inv, Enabled, Next, Apart;
    if steps != [] {
      StepKeeps(S, steps[0]);
      RunKeeps(Next(S, steps[0]), steps[1..]);
    }
  }

  /**
   * Crash safety: after any run from first boot, crashes included, every row's file exists and is the complete body of
   * some push of that hash by that owner, and every acknowledged blob that was not deleted since has its row.
   */
  lemma CrashSafe(files: map<Path, Bytes>, steps: seq<Step>)
    requires Runs(Start(files), steps) && NoOverlap(Start(files), steps)
    ensures var S := Run(Start(files), steps);
            && (forall b :: b in S.d.rows ==>
                  ValidHash(b.hash) && BlobPath(b) in S.d.files && (b, S.d.files[BlobPath(b)]) in S.h.begun)
            && S.h.acked <= S.d.rows.Keys
  {
    RunKeeps(Start(files), steps);
    var S := Run(Start(files), steps);
    forall b | b in S.d.rows
      ensures ValidHash(b.hash) && BlobPath(b) in S.d.files && (b, S.d.files[BlobPath(b)]) in S.h.begun
    {
      assert Backed(S.d, S.h, b);
    }
  }

  predicate SameFile(d: Durable, d': Durable, b: Blob) {
    && ValidHash(b.hash) && BlobPath(b) in d.files && BlobPath(b) in d'.files
    && d'.files[BlobPath(b)] == d.files[BlobPath(b)]
  }

  /**
   * A crash at any point of such a run, followed by any sweep, leaves every acknowledged blob's row and bytes as they
   * were.
   */
  lemma AckedSurvive(files: map<Path, Bytes>, steps: seq<Step>, after: Durable)
    requires Runs(Start(files), steps) && NoOverlap(Start(files), steps)
    requires Enabled(Next(Run(Start(files), steps), Crash), Sweep(after))
    ensures var S := Run(Start(files), steps);
            && after.rows == S.d.rows
            && forall b :: b in S.h.acked ==> b in after.rows && SameFile(S.d, after, b)
  {
    RunKeeps(Start(files), steps);
    var S := Run(Start(files), steps);
    StepKeeps(S, Crash);
    SweepKeeps(Next(S, Crash), after);
    forall b | b in S.h.acked ensures b in after.rows && SameFile(S.d, after, b) {
      assert Backed(S.d, S.h, b) && Backed(after, S.h, b);
    }
  }

  // ---- what becomes of a row -----------------------------------------------------------------------

  /** The step takes the row of `b` away: its owner deletes it or is unpaired. */
  predicate Removes(step: Step, b: Blob) {
    || (step.Delete? && step.owner == b.owner && b.hash in step.hashes)
    || (step.Unpair? && step.owner == b.owner)
  }

  /**
   * A row goes exactly when its owner deletes it or is unpaired, and comes exactly with the commit of its push; until
   * then its size stays what it is, and so, but for a push of the same blob, does its file.
   */
  lemma RowsExactly(S: State, step: Step, b: Blob)
    requires Inv(S) && Enabled(S, step) && Apart(S, step)
    ensures var S' := Next(S, step);
            var commits := step.Commit? && S.v.writer.value.blob == b;
            && (b in S'.d.rows <==> commits || (b in S.d.rows && !Removes(step, b)))
            && (commits ==> S'.d.rows[b] == |S.v.writer.value.body|)
            && (!commits && b in S'.d.rows ==> S'.d.rows[b] == S.d.rows[b])
            && (b in S'.d.rows && b in S.h.acked ==> b in S'.h.acked)
            && (b in S.d.rows && b in S'.d.rows && !(step.Rename? && S.v.writer.value.blob == b) ==>
                  SameFile(S.d, S'.d, b))
  {
    hide Inv, Enabled, Next, Apart;
    RowsAfter(S, step, b);
    if b in S.d.rows && b in Next(S, step).d.rows && !(step.Rename? && S.v.writer.value.blob == b) {
      FileKept(S, step, b);
    }
  }

  lemma RowsAfter(S: State, step: Step, b: Blob)
    requires Inv(S) && Enabled(S, step)
    ensures step.Commit? || step.Rename? ==> S.v.writer.Some?
    ensures var S' := Next(S, step);
            var commits := step.Commit? && S.v.writer.value.blob == b;
            && (b in S'.d.rows <==> commits || (b in S.d.rows && !Removes(step, b)))
            && (commits ==> S'.d.rows[b] == |S.v.writer.value.body|)
            && (!commits && b in S'.d.rows ==> S'.d.rows[b] == S.d.rows[b])
            && (b in S'.d.rows && b in S.h.acked ==> b in S'.h.acked)
  {
    hide Inv, HexEncode, TmpPath, BlobPath, PathsOf, ValidHash;
    if step.Sweep? { SweepKeeps(S, step.after); }
  }

  lemma FileKept(S: State, step: Step, b: Blob)
    requires Inv(S) && Enabled(S, step) && Apart(S, step) && b in S.d.rows && b in Next(S, step).d.rows
    requires !(step.Rename? && S.v.writer.value.blob == b)
    ensures SameFile(S.d, Next(S, step).d, b)
  {
    assert Backed(S.d, S.h, b);
    StepKeeps(S, step);
    assert Backed(Next(S, step).d, Next(S, step).h, b);
  }

  /** No step of the run takes `b` away. */
  ghost predicate Spares(steps: seq<Step>, b: Blob) { forall i :: 0 <= i < |steps| ==> !Removes(steps[i], b) }

  /**
   * Durability: an acknowledged blob has its row, and with it a complete file, after any further run with crashes and
   * sweeps anywhere in it, until its owner deletes it or is unpaired.
   */
  lemma {:induction false} AckedStays(S: State, steps: seq<Step>, b: Blob)
    requires Inv(S) && Runs(S, steps) && NoOverlap(S, steps) && Spares(steps, b) && b in S.h.acked
    ensures var S' := Run(S, steps); b in S'.h.acked && b in S'.d.rows && Backed(S'.d, S'.h, b)
    decreases |steps|
  {
    hide Enabled, Next, Apart, Backed;
    assert b in S.d.rows by { AckedHasRow(S, b); }
    if steps == [] {
      RowBacked(S, b);
    } else {
      var S1 := Next(S, steps[0]);
      assert !Removes(steps[0], b);
      StepKeeps(S, steps[0]);
      RowsExactly(S, steps[0], b);
      assert Spares(steps[1..], b);
      hide Inv;
      AckedStays(S1, steps[1..], b);
    }
  }

  lemma AckedHasRow(S: State, b: Blob)
    requires Inv(S) && b in S.h.acked
    ensures b in S.d.rows
  {
  }

  lemma RowBacked(S: State, b: Blob)
    requires Inv(S) && b in S.d.rows
    ensures Backed(S.d, S.h, b)
  {
  }
}
