/** The boot sweep that reconciles the media directory with the database. */
module Gc {
  import opened Basics
  import opened MediaPaths
  import opened MediaStore
  import opened GcTree
  import opened GcSpec

  method ListSet<T(==,!new)>(s: set<T>) returns (order: seq<T>)
    ensures Enumerates(order, s)
  {
    order := [];
    var left := s;
    while left != {}
      invariant NoDup(order) && left <= s && forall x :: x in order <==> x in s - left
      decreases |left|
    {
      var x :| x in left;
      assert x !in order;
      order := order + [x];
      left := left - {x};
    }
  }

  /** The inner loop of the walk: directories are for the stack, the rest are files. */
  method Sort(dirs: set<Path>, entries: seq<Path>) returns (kids: seq<Path>, plain: seq<Path>)
    requires NoDup(entries)
    ensures NoDup(kids) && forall p :: p in kids <==> p in entries && p in dirs
    ensures NoDup(plain) && forall p :: p in plain <==> p in entries && p !in dirs
  {
    kids, plain := [], [];
    for i := 0 to |entries|
      invariant NoDup(kids) && forall p :: p in kids <==> p in entries[..i] && p in dirs
      invariant NoDup(plain) && forall p :: p in plain <==> p in entries[..i] && p !in dirs
    {
      assert entries[..i + 1] == entries[..i] + [entries[i]] && entries[i] !in entries[..i];
      if entries[i] in dirs { kids := kids + [entries[i]]; } else { plain := plain + [entries[i]]; }
    }
    assert entries[..|entries|] == entries;
  }

  class Sweeper {
    var files: map<Path, Bytes>
    var dirs: set<Path>
    var rows: map<Blob, nat>
    const owners: seq<Owner>
    const faults: Faults

    constructor (files: map<Path, Bytes>, dirs: set<Path>, rows: map<Blob, nat>, owners: seq<Owner>, faults: Faults)
      ensures this.files == files && this.dirs == dirs && this.rows == rows && this.owners == owners
      ensures this.faults == faults
    {
      this.files, this.dirs, this.rows, this.owners, this.faults := files, dirs, rows, owners, faults;
    }

    ghost predicate Valid()
      reads this
    {
      Tree(files.Keys, dirs) && RowsValid(rows, owners) && NoDup(owners)
    }

    /** An unreadable or missing directory reads as empty; otherwise its entries, in whatever order. */
    method ReadDir(d: Path) returns (entries: seq<Path>)
      ensures faults.read(d) ==> entries == []
      ensures !faults.read(d) ==> Enumerates(entries, Children(files.Keys, dirs, d))
    {
      if faults.read(d) { return []; }
      entries := ListSet(Children(files.Keys, dirs, d));
    }

    /** Exactly the files below `root`, each once, whatever the order of the entries; with read errors, some of them. */
    method WalkFiles(root: Path) returns (found: seq<Path>)
      requires Tree(files.Keys, dirs)
      ensures NoDup(found) && forall f :: f in found ==> f in files && Under(root, f)
      ensures Faultless(faults) ==> forall f :: f in files && Under(root, f) ==> f in found
    {
      hide Walking, AllSeen, Pending, Tree, Antichain, NoDup, Enumerates, Children, Under;
      found := [];
      var stack := [root];
      WalkStarts(files.Keys, dirs, root);
      while stack != []
        invariant Walking(files.Keys, dirs, root, stack, found)
        invariant Faultless(faults) ==> AllSeen(files.Keys, root, stack, found)
        decreases |Pending(dirs, stack)|, |stack|
      {
        var d, rest := stack[|stack| - 1], stack[..|stack| - 1];
        assert stack == rest + [d];
        var entries := ReadDir(d);
        var kids, plain := Sort(dirs, entries);
        WalkStep(files.Keys, dirs, root, rest, d, entries, kids, plain, found, faults.read(d));
        stack, found := rest + kids, found + plain;
      }
      WalkEnds(files.Keys, dirs, root, found);
    }

    /** Removes everything below `d` and `d` itself, or fails part way. */
    method RemoveDirAll(d: Path) returns (ok: bool)
      requires Valid() && d in dirs && d != []
      modifies `files, `dirs
      ensures Valid() && (ok <==> !faults.clear(d))
      ensures Fewer(files, old(files)) && LostBelow(files.Keys, old(files.Keys), d)
      ensures if ok then files.Keys == Outside(old(files.Keys), d) && dirs == Outside(old(dirs), d)
              else dirs == old(dirs)
    {
      hide Tree, Cut, Partly, Fewer, Outside;
      ok := !faults.clear(d);
      CutEffect(files, dirs, d, faults.kept);
      if ok {
        files := Cut(files, d);
        dirs := Outside(dirs, d);
      } else {
        files := Partly(files, d, faults.kept);
      }
    }

    /** First leg: top-level directories of nobody who is paired. */
    method ClearUnknown(known: set<string>) returns (n: nat)
      requires Valid()
      modifies `files, `dirs
      ensures Valid() && Fewer(files, old(files)) && SparesKnown(files.Keys, old(files.Keys), known)
      ensures Faultless(faults) ==>
                files.Keys == KnownFiles(old(files.Keys), known) && dirs == KeptDirs(old(dirs), known)
      ensures Faultless(faults) ==> n == |UnknownDirs(old(dirs), known)|
    {
      hide Tree, Enumerates, Fewer, SparesKnown, LostBelow, Spared, Outside, Among, RowsValid, NoDup;
      n := 0;
      var entries := ReadDir([]);
      ghost var gone: set<Path> := {};
      ghost var files0, dirs0 := files.Keys, dirs;
      ghost var unknown := UnknownDirs(dirs0, known);
      TopLevel(files0, dirs0, entries, faults.read([]));
      LegOneStart(files, dirs0, known, unknown);
      for i := 0 to |entries|
        invariant Valid() && Fewer(files, old(files)) && SparesKnown(files.Keys, files0, known)
        invariant dirs <= dirs0 && forall j :: i <= j < |entries| && entries[j] in dirs0 ==> entries[j] in dirs
        invariant gone == Among(entries[..i], unknown)
        invariant Faultless(faults) ==> n == |gone| && files.Keys == Spared(files0, gone) && dirs == Spared(dirs0, gone)
      {
        var e := entries[i];
        assert e in entries && entries[..i + 1] == entries[..i] + [e];
        AmongMore(entries, i, unknown);
        if e[0] !in known && e in dirs {
          ghost var f1, d1 := files, dirs;
          var ok := RemoveDirAll(e);
          LegOneStep(entries, i, dirs0, d1, dirs, ok);
          LegOneSafe(old(files), f1, files, e, known);
          SparedMore(files0, gone, e);
          SparedMore(dirs0, gone, e);
          gone := gone + {e};
          if ok { n := n + 1; }
        }
      }
      assert entries[..|entries|] == entries;
      if Faultless(faults) { SparedAll(files0, dirs0, entries, known); }
    }

    /** Second leg: files below the owner's directory that no row of theirs names. */
    method DropOrphans(owner: Owner, expected: set<Path>) returns (n: nat)
      requires Valid()
      modifies `files
      ensures Valid() && Fewer(files, old(files)) && LostOf(files.Keys, old(files.Keys), owner, expected)
      ensures Faultless(faults) ==> files.Keys == old(files.Keys) - Strays(old(files.Keys), owner, expected)
      ensures Faultless(faults) ==> n == |Strays(old(files.Keys), owner, expected)|
    {
      hide Tree, Under, RowsValid, Strays, LostOf, Fewer, Faultless, NoDup;
      n := 0;
      ghost var was := files;
      var found := WalkFiles([HexEncode(owner)]);
      ghost var gone: set<Path> := {};
      for i := 0 to |found|
        invariant files == was - gone && n == |gone|
        invariant forall g :: g in gone ==> g in found[..i] && g !in expected
        invariant Faultless(faults) ==> forall f :: f in found[..i] && f !in expected ==> f in gone
      {
        var f := found[i];
        NextOf(found, i);
        NoUnlinkFault(faults, f);
        if f !in expected && !faults.unlink(f) {
          DropOne(was, gone, f);
          files := files - {f};
          gone := gone + {f};
          n := n + 1;
        }
      }
      assert found[..|found|] == found;
      OrphansDropped(was, dirs, files, gone, found, owner, expected, Faultless(faults));
    }

    /** Third leg: rows of the owner with nothing at their path. */
    method DropPhantoms(owner: Owner) returns (n: nat)
      requires Valid()
      modifies `rows
      ensures Valid() && rows == old(rows) - PhantomsOf(files.Keys, dirs, old(rows), {owner})
      ensures n == |PhantomsOf(files.Keys, dirs, old(rows), {owner})|
    {
      hide Tree, Phantoms, RowsValid;
      n := 0;
      ghost var was, there := rows, files.Keys;
      var list := ListSet(set b | b in rows && b.owner == owner);
      ghost var gone: set<Blob> := {};
      for i := 0 to |list|
        invariant rows == was - gone && n == |gone|
        invariant forall b :: b in gone <==> b in list[..i] && b in Phantoms(there, dirs, was)
      {
        var b := list[i];
        assert b in list && list[..i + 1] == list[..i] + [b] && b !in list[..i];
        IsPhantom(there, dirs, was, owners, b);
        if BlobPath(b) !in files && BlobPath(b) !in dirs {
          DropOne(was, gone, b);
          rows := rows - {b};
          gone := gone + {b};
          n := n + 1;
        }
      }
      assert list[..|list|] == list;
      PhantomsDropped(there, dirs, was, owners, owner, list, gone);
    }

    /**
     * The whole sweep. Whatever fails, no file with a row is removed and no row with a file; with no filesystem errors
     * what is left, and what is counted, is exactly determined.
     */
    method Sweep() returns (stats: GcStats)
      requires Valid()
      modifies `files, `dirs, `rows
      ensures Valid() && Swept(Disk(old(files), old(rows), owners), Disk(files, rows, owners))
      ensures Faultless(faults) ==>
                files == KeptFiles(old(files), old(rows)) && dirs == KeptDirs(old(dirs), KnownDirs(owners))
      ensures Faultless(faults) ==> rows == KeptRows(old(files.Keys), old(dirs), old(rows))
      ensures Faultless(faults) ==> stats == Found(old(files.Keys), old(dirs), old(rows), owners)
    {
      hide Tree, RowsValid, NoDup, Fewer, LostOf, SparesKnown, Strays, Faultless, KnownFiles, KeptFiles, KeptDirs,
        RowFilesKept, Expected, PhantomsOf, Phantoms, OrphansOf, Orphans, Swept;
      ghost var files0, dirs0, rows0 := files, dirs, rows;
      var unknown := ClearUnknown(KnownDirs(owners));
      ghost var files1, dirs1 := files, dirs;
      OwnersStart(files1, dirs1, rows0, owners);
      var orphans, phantoms := 0, 0;
      for i := 0 to |owners|
        invariant Valid() && dirs == dirs1 && Fewer(files, files1) && RowFilesKept(files.Keys, files1.Keys, rows0)
        invariant rows == rows0 - PhantomsOf(files1.Keys, dirs1, rows0, Done(owners, i))
        invariant phantoms == |PhantomsOf(files1.Keys, dirs1, rows0, Done(owners, i))|
        invariant Faultless(faults) ==> files.Keys == files1.Keys - OrphansOf(files1.Keys, owners, i, rows0)
        invariant Faultless(faults) ==> orphans == |OrphansOf(files1.Keys, owners, i, rows0)|
      {
        ghost var f2, r2 := files, rows;
        var m := DropOrphans(owners[i], Expected(rows, owners[i]));
        OrphanStep(f2, files, files1, dirs1, r2, rows0, owners, i, Faultless(faults));
        var k := DropPhantoms(owners[i]);
        PhantomStep(files, files1, dirs1, r2, rows0, owners, i);
        orphans, phantoms := orphans + m, phantoms + k;
      }
      stats := GcStats(unknown, orphans, phantoms);
      SweptSafely(files0, files1, files, dirs1, rows0, rows, owners);
      if Faultless(faults) { SweptExactly(files0, dirs0, files1, files, rows0, owners); }
    }
  }

  // ---- the sweep of a store that got here by any run ------------------------------------------

  /** Rows name valid hashes of paired owners, and the lock holder a valid hash; unlike `Inv` this needs no premise. */
  ghost predicate Orderly(S: State) {
    && (forall b :: b in S.d.rows ==> ValidHash(b.hash) && b.owner in S.d.owners)
    && (S.v.writer.Some? ==> ValidHash(S.v.writer.value.blob.hash))
  }

  lemma StepOrderly(S: State, step: Step)
    requires Orderly(S) && Enabled(S, step)
    ensures Orderly(Next(S, step))
  {
    hide HexEncode, BlobPath, TmpPath, PathsOf, ValidHash;
  }

  lemma {:induction false} RunOrderly(S: State, steps: seq<Step>)
    requires Orderly(S) && Runs(S, steps)
    ensures Orderly(Run(S, steps))
    decreases |steps|
  {
    hide Orderly, Enabled, Next;
    if steps != [] {
      StepOrderly(S, steps[0]);
      RunOrderly(Next(S, steps[0]), steps[1..]);
    }
  }

  /**
   * After any run that ends in a boot, overlaps and crashes included, the sweep can start, and what it leaves is what
   * the store's own sweep step allows.
   */
  method SweepAtBoot(ghost found: map<Path, Bytes>, ghost steps: seq<Step>, d: Durable, dirs: set<Path>,
                     owners: seq<Owner>, faults: Faults) returns (after: Durable)
    requires Runs(Start(found), steps) && Run(Start(found), steps).d == d && Run(Start(found), steps).v.booting
    requires Enumerates(owners, d.owners) && Tree(d.files.Keys, dirs)
    ensures Enabled(Run(Start(found), steps), Sweep(after))
    ensures Faultless(faults) ==>
              after.files == KeptFiles(d.files, d.rows) && after.rows == KeptRows(d.files.Keys, dirs, d.rows)
  {
    hide Tree, Swept, Runs, Run, KeptFiles, KeptRows, Faultless, KeptDirs, Found;
    RunOrderly(Start(found), steps);
    var sweeper := new Sweeper(d.files, dirs, d.rows, owners, faults);
    var stats := sweeper.Sweep();
    assert Disk(d.files, d.rows, owners) == d;
    after := Disk(sweeper.files, sweeper.rows, owners);
  }
}
