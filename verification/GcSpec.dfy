/** What the boot sweep does to files, directories and rows, and why its loops do it. */
module GcSpec {
  import opened Basics
  import opened MediaPaths
  import opened MediaStore
  import opened GcTree

  datatype GcStats = GcStats(unknownOwnerDirs: nat, orphanFiles: nat, phantomRows: nat)

  /** Paths on which a filesystem call fails; a failed recursive removal leaves some files behind. */
  datatype Faults = Faults(read: Path -> bool, unlink: Path -> bool, clear: Path -> bool, kept: Path -> bool)

  ghost predicate Faultless(x: Faults) {
    forall p :: !x.read(p) && !x.unlink(p) && !x.clear(p)
  }

  function KnownDirs(owners: seq<Owner>): set<string> { set i | 0 <= i < |owners| :: HexEncode(owners[i]) }

  ghost predicate RowsValid(rows: map<Blob, nat>, owners: seq<Owner>) {
    forall b :: b in rows ==> ValidHash(b.hash) && b.owner in owners
  }

  /** The paths some row names. */
  function RowPaths(rows: map<Blob, nat>): set<Path> {
    set b | b in rows && ValidHash(b.hash) :: BlobPath(b)
  }

  // ---- what a sweep without errors does ---------------------------------------------------

  function UnknownDirs(dirs: set<Path>,
                       known: set<string>): set<Path> { set d | d in dirs && |d| == 1 && d[0] !in known }

  function Orphans(files: set<Path>, known: set<string>, expected: set<Path>): set<Path> {
    set f | f in files && |f| >= 2 && f[0] in known && f !in expected
  }

  function Phantoms(files: set<Path>, dirs: set<Path>, rows: map<Blob, nat>): set<Blob> {
    set b | b in rows && ValidHash(b.hash) && BlobPath(b) !in files && BlobPath(b) !in dirs
  }

  function PhantomsOf(files: set<Path>, dirs: set<Path>, rows: map<Blob, nat>, owners: set<Owner>): set<Blob> {
    OwnedBy(Phantoms(files, dirs, rows), owners)
  }

  /** The orphans of one owner. */
  function Strays(files: set<Path>, owner: Owner, expected: set<Path>): set<Path> {
    set f | f in files && Under([HexEncode(owner)], f) && f !in expected
  }

  predicate LostOf(files: set<Path>, was: set<Path>, owner: Owner, expected: set<Path>) {
    forall f :: f in was && f !in files ==> f in Strays(was, owner, expected)
  }

  function Expected(rows: map<Blob, nat>, owner: Owner): set<Path> {
    set b | b in rows && b.owner == owner && ValidHash(b.hash) :: BlobPath(b)
  }

  function Done(owners: seq<Owner>, i: nat): set<Owner>
    requires i <= |owners|
  {
    set o | o in owners[..i]
  }

  function OrphansOf(files: set<Path>, owners: seq<Owner>, i: nat, rows: map<Blob, nat>): set<Path>
    requires i <= |owners|
  {
    Orphans(files, KnownDirs(owners[..i]), RowPaths(rows))
  }

  predicate RowFilesKept(files: set<Path>, was: set<Path>, rows: map<Blob, nat>) {
    forall b :: b in rows && ValidHash(b.hash) && BlobPath(b) in was ==> BlobPath(b) in files
  }

  function Disk(files: map<Path, Bytes>, rows: map<Blob, nat>, owners: seq<Owner>): Durable {
    Durable(files, (set o | o in owners), rows)
  }

  /** What a sweep without errors reports. */
  function Found(files: set<Path>, dirs: set<Path>, rows: map<Blob, nat>, owners: seq<Owner>): GcStats {
    GcStats(|UnknownDirs(dirs, KnownDirs(owners))|, |Orphans(files, KnownDirs(owners), RowPaths(rows))|,
            |Phantoms(files, dirs, rows)|)
  }

  /** Files at the top level are not the sweep's business; below it a file stays exactly when some row names it. */
  function KeptFiles(files: map<Path, Bytes>, rows: map<Blob, nat>): map<Path, Bytes> {
    map f | f in files && (|f| < 2 || f in RowPaths(rows)) :: files[f]
  }

  function KeptDirs(dirs: set<Path>, known: set<string>): set<Path> { set d | d in dirs && (d == [] || d[0] in known) }

  function KeptRows(files: set<Path>, dirs: set<Path>,
                    rows: map<Blob, nat>): map<Blob, nat> { rows - Phantoms(files, dirs, rows) }

  /** Removed together with a directory in `gone`. */
  predicate Cleared(gone: set<Path>, p: Path) { exists e :: e in gone && e <= p }

  function Outside(ps: set<Path>, d: Path): set<Path> { set p | p in ps && !(d <= p) }

  function Spared(ps: set<Path>, gone: set<Path>): set<Path> { set p | p in ps && !Cleared(gone, p) }

  function Among(es: seq<Path>, s: set<Path>): set<Path> { set e | e in es && e in s }

  predicate Fewer(files: map<Path, Bytes>,
                  was: map<Path, Bytes>) { forall f :: f in files ==> f in was && files[f] == was[f] }

  predicate SparesKnown(files: set<Path>, was: set<Path>, known: set<string>) {
    forall f :: f in was && f !in files ==> |f| >= 2 && f[0] !in known
  }

  function KnownFiles(files: set<Path>,
                      known: set<string>): set<Path> { set f | f in files && (|f| < 2 || f[0] in known) }

  /** What a recursive removal of `d` leaves when it succeeds, and when it fails having spared the files in `kept`. */
  function Cut(files: map<Path, Bytes>, d: Path): map<Path, Bytes> { map f | f in files && !(d <= f) :: files[f] }

  function Partly(files: map<Path, Bytes>, d: Path, kept: Path -> bool): map<Path, Bytes> {
    map f | f in files && (kept(f) || !(d <= f)) :: files[f]
  }

  predicate LostBelow(files: set<Path>, was: set<Path>, d: Path) { forall f :: f in was && f !in files ==> Under(d, f) }

  lemma CutEffect(files: map<Path, Bytes>, dirs: set<Path>, d: Path, kept: Path -> bool)
    requires Tree(files.Keys, dirs) && d in dirs && d != []
    ensures Fewer(Cut(files, d), files) && LostBelow(Cut(files, d).Keys, files.Keys, d)
    ensures Cut(files, d).Keys == Outside(files.Keys, d)
    ensures Fewer(Partly(files, d, kept), files) && LostBelow(Partly(files, d, kept).Keys, files.Keys, d)
    ensures Tree(Cut(files, d).Keys, Outside(dirs, d)) && Tree(Partly(files, d, kept).Keys, dirs)
  {
    forall f | f in files && d <= f ensures Under(d, f) { assert f != d; }
    TreeOutside(files.Keys, dirs, d);
    assert Cut(files, d).Keys == Outside(files.Keys, d);
  }

  lemma NoUnlinkFault(x: Faults, p: Path)
    ensures Faultless(x) ==> !x.unlink(p)
  {
  }

  lemma NextOf<T(!new)>(s: seq<T>, i: nat)
    requires NoDup(s) && i < |s|
    ensures s[i] in s && s[i] !in s[..i] && forall x :: x in s[..i + 1] <==> x in s[..i] || x == s[i]
  {
    assert s[..i + 1] == s[..i] + [s[i]];
  }

  lemma DropOne<K, V>(m: map<K, V>, gone: set<K>, k: K)
    ensures m - gone - {k} == m - (gone + {k})
  {
  }

  lemma OrphansDropped(was: map<Path, Bytes>, dirs: set<Path>, files: map<Path, Bytes>, gone: set<Path>,
                       found: seq<Path>, owner: Owner,
                       expected: set<Path>, faultless: bool)
    requires Tree(was.Keys, dirs) && files == was - gone
    requires forall f :: f in found ==> f in was && Under([HexEncode(owner)], f)
    requires forall g :: g in gone ==> g in found && g !in expected
    requires faultless ==> (forall f :: f in was && Under([HexEncode(owner)], f) ==>
               f in found) && forall f :: f in found && f !in expected ==> f in gone
    ensures Tree(files.Keys, dirs) && Fewer(files, was) && LostOf(files.Keys, was.Keys, owner, expected)
    ensures faultless ==> gone == Strays(was.Keys, owner, expected) && files.Keys == was.Keys - gone
  {
    TreeFewer(was.Keys, dirs, files.Keys);
  }

  lemma IsPhantom(files: set<Path>, dirs: set<Path>, rows: map<Blob, nat>, owners: seq<Owner>, b: Blob)
    requires RowsValid(rows, owners) && b in rows
    ensures ValidHash(b.hash) && (b in Phantoms(files, dirs, rows) <==> BlobPath(b) !in files && BlobPath(b) !in dirs)
  {
  }

  lemma PhantomsDropped(files: set<Path>, dirs: set<Path>, rows: map<Blob, nat>, owners: seq<Owner>, owner: Owner,
                        list: seq<Blob>, gone: set<Blob>)
    requires RowsValid(rows, owners) && Enumerates(list, set b | b in rows && b.owner == owner)
    requires forall b :: b in gone <==> b in list && b in Phantoms(files, dirs, rows)
    ensures gone == PhantomsOf(files, dirs, rows, {owner}) && RowsValid(rows - gone, owners)
  {
  }

  lemma TreeFewer(files: set<Path>, dirs: set<Path>, files': set<Path>)
    requires Tree(files, dirs) && files' <= files
    ensures Tree(files', dirs)
  {
  }

  lemma TreeOutside(files: set<Path>, dirs: set<Path>, d: Path)
    requires Tree(files, dirs) && d in dirs && d != []
    ensures Tree(Outside(files, d), Outside(dirs, d))
  {
  }

  /** Entries of the media directory are exactly the paths of length one. */
  lemma TopLevel(files: set<Path>, dirs: set<Path>, entries: seq<Path>, unread: bool)
    requires Tree(files, dirs)
    requires if unread then entries == [] else Enumerates(entries, Children(files, dirs, []))
    ensures NoDup(entries) && forall e :: e in entries ==> |e| == 1
    ensures !unread ==> forall e :: e in files + dirs && |e| == 1 ==> e in entries
  {
    forall e | e in entries ensures |e| == 1 { assert e in Children(files, dirs, []); }
    if !unread {
      forall e | e in files + dirs && |e| == 1 ensures e in entries { assert e in Children(files, dirs, []); }
    }
  }

  lemma LegOneStart(files: map<Path, Bytes>, dirs: set<Path>, known: set<string>, unknown: set<Path>)
    ensures Fewer(files, files) && SparesKnown(files.Keys, files.Keys, known) && Among([], unknown) == {}
    ensures Spared(files.Keys, {}) == files.Keys && Spared(dirs, {}) == dirs
  {
  }

  lemma LegOneSafe(files0: map<Path, Bytes>, f1: map<Path, Bytes>, f2: map<Path, Bytes>, e: Path, known: set<string>)
    requires Fewer(f1, files0) && SparesKnown(f1.Keys, files0.Keys, known)
    requires Fewer(f2, f1) && LostBelow(f2.Keys, f1.Keys, e) && |e| == 1 && e[0] !in known
    ensures Fewer(f2, files0) && SparesKnown(f2.Keys, files0.Keys, known)
  {
  }

  lemma AmongMore(es: seq<Path>, i: nat, s: set<Path>)
    requires i < |es| && NoDup(es)
    ensures Among(es[..i + 1], s) == Among(es[..i], s) + (if es[i] in s then {es[i]} else {})
    ensures es[i] !in Among(es[..i], s)
  {
    assert es[..i + 1] == es[..i] + [es[i]];
  }

  lemma SparedMore(ps: set<Path>, gone: set<Path>, e: Path)
    ensures Outside(Spared(ps, gone), e) == Spared(ps, gone + {e})
  {
    forall p | p in ps ensures Cleared(gone + {e}, p) <==> Cleared(gone, p) || e <= p { }
  }

  /** Later entries are other top-level paths, so a removal does not touch them. */
  lemma LegOneStep(entries: seq<Path>, i: nat, dirs0: set<Path>, d1: set<Path>, d2: set<Path>, ok: bool)
    requires i < |entries| && NoDup(entries) && forall e :: e in entries ==> |e| == 1
    requires d1 <= dirs0 && entries[i] in d1 && d2 == (if ok then Outside(d1, entries[i]) else d1)
    requires forall j :: i <= j < |entries| && entries[j] in dirs0 ==> entries[j] in d1
    ensures d2 <= dirs0 && forall j :: i + 1 <= j < |entries| && entries[j] in dirs0 ==> entries[j] in d2
  {
    forall j | i + 1 <= j < |entries| && entries[j] in dirs0 ensures entries[j] in d2 {
      assert entries[j] in entries && entries[i] in entries && entries[i] != entries[j];
    }
  }

  lemma SparedAll(files: set<Path>, dirs: set<Path>, entries: seq<Path>, known: set<string>)
    requires Tree(files, dirs) && forall e :: e in files + dirs && |e| == 1 ==> e in entries
    ensures var gone := Among(entries, UnknownDirs(dirs, known));
            && gone == UnknownDirs(dirs, known) && Spared(files, gone) == KnownFiles(files, known)
            && Spared(dirs, gone) == KeptDirs(dirs, known)
  {
    var gone := Among(entries, UnknownDirs(dirs, known));
    assert gone == UnknownDirs(dirs, known);
    forall p | p in files + dirs && p != []
      ensures Cleared(gone, p) <==> p[0] !in known && (|p| >= 2 || p in dirs)
    {
      var top := p[..1];
      if |p| >= 2 { Ancestors(files, dirs, p, 1); } else { assert top == p; }
      if p[0] !in known && top in dirs { assert top in gone && top <= p; }
      if Cleared(gone, p) { var e :| e in gone && e <= p; assert e == top; }
    }
  }

  // ---- the loop over owners -------------------------------------------------------------

  lemma OwnersStart(files: map<Path, Bytes>, dirs: set<Path>, rows: map<Blob, nat>, owners: seq<Owner>)
    ensures Fewer(files, files) && RowFilesKept(files.Keys, files.Keys, rows)
    ensures PhantomsOf(files.Keys, dirs, rows, Done(owners, 0)) == {} && rows - {} == rows
    ensures OrphansOf(files.Keys, owners, 0, rows) == {} && files.Keys - {} == files.Keys
  {
  }

  lemma HexOf(owners: seq<Owner>, i: nat, name: string)
    requires i < |owners|
    ensures name in KnownDirs(owners[..i + 1]) <==> name in KnownDirs(owners[..i]) || name == HexEncode(owners[i])
  {
    var now, was := owners[..i + 1], owners[..i];
    assert now == was + [owners[i]];
    if name in KnownDirs(was) {
      var j :| 0 <= j < |was| && HexEncode(was[j]) == name; assert HexEncode(now[j]) == name;
    }
    if name == HexEncode(owners[i]) { assert HexEncode(now[i]) == name; }
    if name in KnownDirs(now) {
      var j :| 0 <= j < |now| && HexEncode(now[j]) == name; assert j < i ==> HexEncode(was[j]) == name;
    }
  }

  lemma HexOnce(owners: seq<Owner>, i: nat)
    requires i < |owners| && NoDup(owners)
    ensures HexEncode(owners[i]) !in KnownDirs(owners[..i])
  {
    forall j | 0 <= j < i ensures HexEncode(owners[..i][j]) != HexEncode(owners[i]) {
      if HexEncode(owners[j]) == HexEncode(owners[i]) { HexInjective(owners[j], owners[i]); }
    }
  }

  /** Below an owner's directory, that owner's rows are the only ones that can name a file. */
  lemma ExpectedIsAll(rows: map<Blob, nat>, r2: map<Blob, nat>, owners: seq<Owner>, owner: Owner, f: Path)
    requires RowsValid(rows, owners) && Under([HexEncode(owner)], f)
    requires forall b: Blob :: b.owner == owner ==> (b in r2 <==> b in rows)
    ensures f in Expected(r2, owner) <==> f in RowPaths(rows)
  {
    if f in RowPaths(rows) {
      var b :| b in rows && ValidHash(b.hash) && BlobPath(b) == f;
      assert f[0] == HexEncode(owner);
      HexInjective(b.owner, owner);
    }
  }

  lemma RowsUntouched(rows: map<Blob, nat>, files: set<Path>, dirs: set<Path>, owners: seq<Owner>, i: nat)
    requires i < |owners| && NoDup(owners)
    ensures forall b: Blob :: b.owner == owners[i] ==>
              (b in rows - PhantomsOf(files, dirs, rows, Done(owners, i)) <==> b in rows)
  {
  }

  lemma OrphanStep(f2: map<Path, Bytes>, f3: map<Path, Bytes>, files1: map<Path, Bytes>, dirs: set<Path>,
                   r2: map<Blob, nat>,
                   rows: map<Blob, nat>, owners: seq<Owner>, i: nat, faultless: bool)
    requires i < |owners| && NoDup(owners) && RowsValid(rows, owners)
    requires r2 == rows - PhantomsOf(files1.Keys, dirs, rows, Done(owners, i))
    requires Fewer(f2, files1) && RowFilesKept(f2.Keys, files1.Keys, rows)
    requires Fewer(f3, f2) && LostOf(f3.Keys, f2.Keys, owners[i], Expected(r2, owners[i]))
    requires faultless ==> f2.Keys == files1.Keys - OrphansOf(files1.Keys, owners, i, rows)
    requires faultless ==> f3.Keys == f2.Keys - Strays(f2.Keys, owners[i], Expected(r2, owners[i]))
    ensures Fewer(f3, files1) && RowFilesKept(f3.Keys, files1.Keys, rows)
    ensures faultless ==> f3.Keys == files1.Keys - OrphansOf(files1.Keys, owners, i + 1, rows)
    ensures faultless ==> |OrphansOf(files1.Keys, owners, i + 1, rows)|
                          == |OrphansOf(files1.Keys, owners, i, rows)|
                             + |Strays(f2.Keys, owners[i], Expected(r2, owners[i]))|
  {
    var o := owners[i];
    RowsUntouched(rows, files1.Keys, dirs, owners, i);
    forall f | f in f2 && f !in f3 ensures f !in RowPaths(rows) { ExpectedIsAll(rows, r2, owners, o, f); }
    forall b | b in rows && ValidHash(b.hash) && BlobPath(b) in files1
      ensures BlobPath(b) in f3
    {
      assert BlobPath(b) in RowPaths(rows);
    }
    if faultless { OrphanSum(f2.Keys, files1.Keys, r2, rows, owners, i); }
  }

  lemma OrphanSum(f2: set<Path>, files1: set<Path>, r2: map<Blob, nat>, rows: map<Blob, nat>, owners: seq<Owner>,
                  i: nat)
    requires i < |owners| && NoDup(owners) && RowsValid(rows, owners)
    requires f2 == files1 - OrphansOf(files1, owners, i, rows)
    requires forall b: Blob :: b.owner == owners[i] ==> (b in r2 <==> b in rows)
    ensures var mine := Strays(f2, owners[i], Expected(r2, owners[i]));
            && OrphansOf(files1, owners, i + 1, rows) == OrphansOf(files1, owners, i, rows) + mine
            && |OrphansOf(files1, owners, i + 1, rows)| == |OrphansOf(files1, owners, i, rows)| + |mine|
  {
    var was, mine := OrphansOf(files1, owners, i, rows), Strays(f2, owners[i], Expected(r2, owners[i]));
    HexOnce(owners, i);
    forall f | f in files1 ensures f in OrphansOf(files1, owners, i + 1, rows) <==> f in was + mine {
      if |f| >= 2 {
        HexOf(owners, i, f[0]);
        if f[0] == HexEncode(owners[i]) {
          assert Under([HexEncode(owners[i])], f); ExpectedIsAll(rows, r2, owners, owners[i], f);
        }
      }
    }
    assert was !! mine;
    assert OrphansOf(files1, owners, i + 1, rows) == was + mine;
  }

  lemma PhantomStep(files: map<Path, Bytes>, files1: map<Path, Bytes>, dirs: set<Path>, r2: map<Blob, nat>,
                    rows: map<Blob, nat>,
                    owners: seq<Owner>, i: nat)
    requires i < |owners| && NoDup(owners) && RowsValid(rows, owners) && Fewer(files, files1)
    requires RowFilesKept(files.Keys, files1.Keys, rows)
    requires r2 == rows - PhantomsOf(files1.Keys, dirs, rows, Done(owners, i))
    ensures var was, now := PhantomsOf(files1.Keys, dirs, rows, Done(owners, i)),
                            PhantomsOf(files1.Keys, dirs, rows, Done(owners, i + 1));
            var mine := PhantomsOf(files.Keys, dirs, r2, {owners[i]});
            r2 - mine == rows - now && |now| == |was| + |mine|
  {
    hide RowsValid, Fewer, RowFilesKept, Phantoms, OwnedBy;
    RowsUntouched(rows, files1.Keys, dirs, owners, i);
    assert owners[..i + 1] == owners[..i] + [owners[i]];
    forall b: Blob | b.owner == owners[i]
      ensures b in Phantoms(files.Keys, dirs, r2) <==> b in Phantoms(files1.Keys, dirs, rows)
    {
      SamePhantom(files, files1, dirs, r2, rows, owners, b);
    }
    assert Done(owners, i + 1) == Done(owners, i) + {owners[i]} && owners[i] !in Done(owners, i);
    SplitByOwner(Phantoms(files1.Keys, dirs, rows), Phantoms(files.Keys, dirs, r2), Done(owners, i), owners[i], rows);
  }

  function OwnedBy(bs: set<Blob>, owners: set<Owner>): set<Blob> { set b | b in bs && b.owner in owners }

  lemma SplitByOwner(all: set<Blob>, mine: set<Blob>, done: set<Owner>, o: Owner, rows: map<Blob, nat>)
    requires o !in done && forall b: Blob :: b.owner == o ==> (b in mine <==> b in all)
    ensures var was, more, now := OwnedBy(all, done), OwnedBy(mine, {o}), OwnedBy(all, done + {o});
            rows - was - more == rows - now && |now| == |was| + |more|
  {
    var was, more, now := OwnedBy(all, done), OwnedBy(mine, {o}), OwnedBy(all, done + {o});
    assert was !! more && now == was + more;
  }

  lemma SamePhantom(files: map<Path, Bytes>, files1: map<Path, Bytes>, dirs: set<Path>, r2: map<Blob, nat>,
                    rows: map<Blob, nat>,
                    owners: seq<Owner>, b: Blob)
    requires RowsValid(rows, owners) && Fewer(files, files1) && RowFilesKept(files.Keys, files1.Keys, rows)
    requires (b in r2 <==> b in rows)
    ensures b in Phantoms(files.Keys, dirs, r2) <==> b in Phantoms(files1.Keys, dirs, rows)
  {
  }

  lemma SweptSafely(files0: map<Path, Bytes>, files1: map<Path, Bytes>, files: map<Path, Bytes>, dirs: set<Path>,
                    rows0: map<Blob, nat>,
                    rows: map<Blob, nat>, owners: seq<Owner>)
    requires RowsValid(rows0, owners) && Fewer(files1, files0)
    requires SparesKnown(files1.Keys, files0.Keys, KnownDirs(owners))
    requires Fewer(files, files1) && RowFilesKept(files.Keys, files1.Keys, rows0)
    requires rows == rows0 - PhantomsOf(files1.Keys, dirs, rows0, Done(owners, |owners|))
    ensures Swept(Disk(files0, rows0, owners), Disk(files, rows, owners))
  {
    forall b | b in rows0 && ValidHash(b.hash) && BlobPath(b) in files0
      ensures BlobPath(b) in files1
    {
      KnownTop(b, owners);
    }
  }

  lemma KnownTop(b: Blob, owners: seq<Owner>)
    requires ValidHash(b.hash) && b.owner in owners
    ensures BlobPath(b)[0] in KnownDirs(owners)
  {
    var i :| 0 <= i < |owners| && owners[i] == b.owner;
    assert BlobPath(b)[0] == HexEncode(owners[i]);
  }

  lemma SweptExactly(files0: map<Path, Bytes>, dirs0: set<Path>, files1: map<Path, Bytes>, files: map<Path, Bytes>,
                     rows: map<Blob, nat>,
                     owners: seq<Owner>)
    requires RowsValid(rows, owners) && Fewer(files1, files0) && Fewer(files, files1)
    requires files1.Keys == KnownFiles(files0.Keys, KnownDirs(owners))
    requires files.Keys == files1.Keys - OrphansOf(files1.Keys, owners, |owners|, rows)
    ensures files == KeptFiles(files0, rows)
    ensures OrphansOf(files1.Keys, owners, |owners|, rows) == Orphans(files0.Keys, KnownDirs(owners), RowPaths(rows))
    ensures PhantomsOf(files1.Keys, KeptDirs(dirs0, KnownDirs(owners)), rows, Done(owners, |owners|))
            == Phantoms(files0.Keys, dirs0, rows)
  {
    assert owners[..|owners|] == owners;
    RowPathsKnown(rows, owners);
    FilesExactly(files0, files1, files, rows, owners);
    PhantomsExactly(files0.Keys, dirs0, rows, owners);
  }

  lemma RowPathsKnown(rows: map<Blob, nat>, owners: seq<Owner>)
    requires RowsValid(rows, owners)
    ensures forall f :: f in RowPaths(rows) ==> |f| == 4 && f[0] in KnownDirs(owners)
  {
    forall f | f in RowPaths(rows) ensures |f| == 4 && f[0] in KnownDirs(owners) {
      var b :| b in rows && ValidHash(b.hash) && BlobPath(b) == f;
      KnownTop(b, owners);
    }
  }

  lemma FilesExactly(files0: map<Path, Bytes>, files1: map<Path, Bytes>, files: map<Path, Bytes>, rows: map<Blob, nat>,
                     owners: seq<Owner>)
    requires (forall f :: f in RowPaths(rows) ==> |f| == 4 && f[0] in KnownDirs(owners)) && Fewer(files1, files0)
    requires Fewer(files, files1)
    requires files1.Keys == KnownFiles(files0.Keys, KnownDirs(owners))
    requires files.Keys == files1.Keys - Orphans(files1.Keys, KnownDirs(owners), RowPaths(rows))
    ensures files == KeptFiles(files0, rows)
    ensures Orphans(files1.Keys, KnownDirs(owners), RowPaths(rows))
            == Orphans(files0.Keys, KnownDirs(owners), RowPaths(rows))
  {
    hide RowPaths, KnownDirs;
    assert files.Keys == KeptFiles(files0, rows).Keys;
  }

  lemma PhantomsExactly(files: set<Path>, dirs: set<Path>, rows: map<Blob, nat>, owners: seq<Owner>)
    requires RowsValid(rows, owners)
    ensures PhantomsOf(KnownFiles(files, KnownDirs(owners)), KeptDirs(dirs, KnownDirs(owners)), rows,
                       Done(owners, |owners|))
            == Phantoms(files, dirs, rows)
  {
    hide KnownDirs;
    assert owners[..|owners|] == owners;
    forall b | b in rows
      ensures BlobPath(b)[0] in KnownDirs(owners) && b.owner in Done(owners, |owners|)
    {
      KnownTop(b, owners);
    }
  }

  // ---- what a sweep without errors leaves ---------------------------------------------------

  /** The files below some top-level directory. */
  function DeepFiles(files: map<Path, Bytes>): set<Path> { set f | f in files && |f| >= 2 }

  /** Some row's path is taken by a directory. */
  predicate Obstructed(rows: map<Blob, nat>, dirs: set<Path>) { exists p :: p in RowPaths(rows) && p in dirs }

  /**
   * Afterwards no unknown owner's directory is left and every file below the top level has its row. Files and rows
   * then match one to one exactly when no directory sits where a row says its blob should be: such a row counts as
   * present, so it is not dropped.
   */
  lemma SweepMatches(files: map<Path, Bytes>, dirs: set<Path>, rows: map<Blob, nat>, owners: seq<Owner>)
    requires Tree(files.Keys, dirs) && RowsValid(rows, owners)
    ensures var known := KnownDirs(owners);
            var files', dirs', rows' := KeptFiles(files, rows), KeptDirs(dirs, known), KeptRows(files.Keys, dirs, rows);
            && UnknownDirs(dirs', known) == {}
            && DeepFiles(files') <= RowPaths(rows')
            && (DeepFiles(files') == RowPaths(rows') <==> !Obstructed(rows, dirs))
  {
    hide KnownDirs, RowPaths, KeptFiles, KeptRows, Obstructed, DeepFiles, Tree;
    RowPathsKnown(rows, owners);
    DeepAreRows(files, dirs, rows);
    if Obstructed(rows, dirs) {
      ObstructedDiffers(files, dirs, rows);
    } else {
      RowsAreDeep(files, dirs, rows);
    }
  }

  lemma DeepAreRows(files: map<Path, Bytes>, dirs: set<Path>, rows: map<Blob, nat>)
    ensures DeepFiles(KeptFiles(files, rows)) <= RowPaths(KeptRows(files.Keys, dirs, rows))
  {
    hide RowPaths, KeptRows;
    forall f | f in DeepFiles(KeptFiles(files, rows)) ensures f in RowPaths(KeptRows(files.Keys, dirs, rows)) {
      PathSurvives(files.Keys, dirs, rows, f);
    }
  }

  /** A directory where a row says its blob is: the row is kept and no file answers to it. */
  lemma ObstructedDiffers(files: map<Path, Bytes>, dirs: set<Path>, rows: map<Blob, nat>)
    requires Tree(files.Keys, dirs) && Obstructed(rows, dirs)
    ensures DeepFiles(KeptFiles(files, rows)) != RowPaths(KeptRows(files.Keys, dirs, rows))
  {
    hide RowPaths, KeptRows;
    var p :| p in RowPaths(rows) && p in dirs;
    PathSurvives(files.Keys, dirs, rows, p);
    assert p !in DeepFiles(KeptFiles(files, rows));
  }

  lemma RowsAreDeep(files: map<Path, Bytes>, dirs: set<Path>, rows: map<Blob, nat>)
    requires !Obstructed(rows, dirs) && forall p :: p in RowPaths(rows) ==> |p| == 4
    ensures RowPaths(KeptRows(files.Keys, dirs, rows)) <= DeepFiles(KeptFiles(files, rows))
  {
    hide RowPaths, KeptRows;
    forall p | p in RowPaths(KeptRows(files.Keys, dirs, rows)) ensures p in DeepFiles(KeptFiles(files, rows)) {
      RowWasThere(files.Keys, dirs, rows, p);
      PathSurvives(files.Keys, dirs, rows, p);
    }
  }

  lemma RowWasThere(files: set<Path>, dirs: set<Path>, rows: map<Blob, nat>, p: Path)
    requires p in RowPaths(KeptRows(files, dirs, rows))
    ensures p in RowPaths(rows)
  {
  }

  lemma PathSurvives(files: set<Path>, dirs: set<Path>, rows: map<Blob, nat>, p: Path)
    requires p in RowPaths(rows)
    ensures p in RowPaths(KeptRows(files, dirs, rows)) <==> p in files || p in dirs
  {
    var b :| b in rows && ValidHash(b.hash) && BlobPath(b) == p;
    if p in files || p in dirs { assert b in KeptRows(files, dirs, rows); }
  }

  /** A second sweep finds nothing and changes nothing. */
  lemma SweepTwice(files: map<Path, Bytes>, dirs: set<Path>, rows: map<Blob, nat>, owners: seq<Owner>)
    requires Tree(files.Keys, dirs) && RowsValid(rows, owners)
    ensures var known := KnownDirs(owners);
            var files', dirs', rows' := KeptFiles(files, rows), KeptDirs(dirs, known), KeptRows(files.Keys, dirs, rows);
            && KeptFiles(files', rows') == files' && KeptDirs(dirs', known) == dirs'
            && KeptRows(files'.Keys, dirs', rows') == rows'
            && Found(files'.Keys, dirs', rows', owners) == GcStats(0, 0, 0)
  {
    hide KnownDirs, KeptFiles, Phantoms, RowPaths, Orphans;
    var known := KnownDirs(owners);
    var files', rows' := KeptFiles(files, rows), KeptRows(files.Keys, dirs, rows);
    SweepMatches(files, dirs, rows, owners);
    FilesTwice(files', rows', known);
    NoPhantoms(files, dirs, rows, owners);
    assert rows' - {} == rows';
  }

  lemma FilesTwice(files: map<Path, Bytes>, rows: map<Blob, nat>, known: set<string>)
    requires DeepFiles(files) <= RowPaths(rows)
    ensures KeptFiles(files, rows) == files && Orphans(files.Keys, known, RowPaths(rows)) == {}
  {
    hide RowPaths;
    assert forall f :: f in files && |f| >= 2 ==> f in DeepFiles(files);
  }

  lemma NoPhantoms(files: map<Path, Bytes>, dirs: set<Path>, rows: map<Blob, nat>, owners: seq<Owner>)
    requires RowsValid(rows, owners)
    ensures Phantoms(KeptFiles(files, rows).Keys, KeptDirs(dirs, KnownDirs(owners)), KeptRows(files.Keys, dirs, rows))
            == {}
  {
    hide KnownDirs;
    forall b | b in KeptRows(files.Keys, dirs, rows)
      ensures ValidHash(b.hash)
      ensures (BlobPath(b) in KeptFiles(files, rows) || BlobPath(b) in KeptDirs(dirs, KnownDirs(owners)))
    {
      KnownTop(b, owners);
      assert BlobPath(b) in RowPaths(rows);
    }
  }

  // ---- a directory at a blob's path ----------------------------------------------------------

  const ZEROS: string := seq(64, i => '0')

  lemma ZerosValid()
    ensures ValidHash(ZEROS)
  {
  }

  /** The directories down to and including the blob's own path. */
  function DirsDownTo(p: Path): set<Path> { set n | 0 <= n <= |p| :: p[..n] }

  lemma DirsDownToTree(p: Path)
    ensures Tree({}, DirsDownTo(p)) && p in DirsDownTo(p)
  {
    assert p[..|p|] == p;
    forall d | d in DirsDownTo(p) && d != [] ensures d[..|d| - 1] in DirsDownTo(p) {
      var n :| 0 <= n <= |p| && d == p[..n];
      assert d[..|d| - 1] == p[..n - 1];
    }
  }

  /** One row, no file, and a directory where the file should be: the sweep reports nothing and keeps the row. */
  lemma DirectoryPassesForBlob(owner: Owner, size: nat)
    ensures ValidHash(ZEROS)
    ensures var b := Blob(owner, ZEROS);
            var rows, dirs := map[b := size], DirsDownTo(BlobPath(b));
            && Tree({}, dirs) && RowsValid(rows, [owner])
            && KeptRows({}, dirs, rows) == rows && KeptFiles(map[], rows) == map[]
            && Found({}, dirs, rows, [owner]) == GcStats(0, 0, 0)
  {
    ZerosValid();
    var b := Blob(owner, ZEROS);
    var p := BlobPath(b);
    var rows, dirs := map[b := size], DirsDownTo(p);
    DirsDownToTree(p);
    assert Phantoms({}, dirs, rows) == {};
    assert HexEncode(owner) == HexEncode([owner][0]) && HexEncode(owner) in KnownDirs([owner]);
    forall d | d in dirs && |d| == 1 ensures d[0] in KnownDirs([owner]) {
      var n :| 0 <= n <= |p| && d == p[..n];
      assert d[0] == p[0];
    }
    assert UnknownDirs(dirs, KnownDirs([owner])) == {};
    assert Orphans({}, KnownDirs([owner]), RowPaths(rows)) == {};
  }
}
