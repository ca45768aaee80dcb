/** The push and delete handlers of `/media` as they run when nothing interrupts them. */
module MediaHandlers {
  import opened Basics
  import opened MediaPaths
  import opened MediaStore
  import opened RelayStore
  import Accounting

  type Outcome = Accounting.Outcome

  class Handlers {
    const tables: Tables
    var files: map<Path, Bytes>

    constructor (tables: Tables, files: map<Path, Bytes>)
      ensures this.tables == tables && this.files == files
    {
      this.tables, this.files := tables, files;
    }

    /** The media directory and the tables, as a restart would find them. */
    function Model(): Durable
      reads this, tables
    {
      Durable(files, tables.owners.Keys, tables.media)
    }

    /** The length of the file where a blob belongs, if there is one. */
    function DiskLen(b: Blob): Option<nat>
      requires ValidHash(b.hash)
      reads this
    {
      if BlobPath(b) in files then Some(|files[BlobPath(b)]|) else None
    }

    /**
     * Check, write beside, rename, record. Rows, caps and outcome are those of the accounting; the file is replaced
     * whole exactly when the push is past the caps and not an intact repeat, so one that then fails at the row leaves
     * its file behind without one, and every other leaves the files alone.
     */
    method Push(b: Blob, body: Bytes) returns (r: Outcome)
      requires ValidHash(b.hash)
      modifies this`files, tables`media
      ensures (tables.Model(), r)
              == Accounting.PushMedia(tables.config, old(tables.Model()), b, |body|, old(DiskLen(b)))
      ensures r.Stored? ==> Idempotent(Model(), b, body)
      ensures if r.Failed? || (r.Stored? && !old(Idempotent(Model(), b, body)))
              then files == (old(files) - {TmpPath(b)})[BlobPath(b) := body]
              else files == old(files)
    {
      var full, tmp := BlobPath(b), TmpPath(b);
      if b in tables.media && tables.media[b] == |body| && DiskLen(b) == Some(|body|) {
        return Accounting.Stored(1, 0);
      }
      var stored := if b in tables.media then tables.media[b] else 0;
      var check := tables.CheckCapacity(b.owner, Accounting.Max0(|body| - stored));
      if !check.Fits? { return Accounting.CapExceeded(check); }
      TmpIsNoBlob(b, b);
      files := files[tmp := body];
      files := (files - {tmp})[full := files[tmp]];
      assert files == (old(files) - {tmp})[full := body];
      if b.owner !in tables.owners { return Accounting.Failed; }
      tables.media := tables.media[b := |body|];
      r := Accounting.Stored(1, 0);
    }

    /** The transaction of a delete: rows go, and the paths to unlink are exactly theirs, once each. */
    method DeleteRows(o: Owner, hashes: seq<string>) returns (deleted: nat, unlink: seq<Path>)
      requires forall i :: 0 <= i < |hashes| ==> ValidHash(hashes[i])
      modifies tables`media
      ensures tables.Model() == Accounting.DropMedia(old(tables.Model()), Doomed(old(Model()), o, hashes))
      ensures multiset(unlink) == PathsOf(old(Model()), o, hashes) && deleted == |unlink| <= |hashes|
    {
      deleted, unlink := 0, [];
      ghost var gone: set<Blob> := {};
      for i := 0 to |hashes|
        invariant tables.media == old(tables.media) - gone && gone == Doomed(old(Model()), o, hashes[..i])
        invariant multiset(unlink) + PathsOf(Model(), o, hashes[i..]) == PathsOf(old(Model()), o, hashes)
        invariant deleted == |unlink| <= i
      {
        var b := Blob(o, hashes[i]);
        assert hashes[i..][0] == hashes[i] && hashes[i..][1..] == hashes[i + 1..];
        assert hashes[..i + 1] == hashes[..i] + [hashes[i]];
        ghost var was := Model();
        if b in tables.media {
          tables.media := tables.media - {b};
          gone := gone + {b};
          deleted := deleted + 1;
          unlink := unlink + [BlobPath(b)];
          assert Model() == was.(rows := was.rows - {b});
        }
      }
      assert hashes[..|hashes|] == hashes;
    }

    /** After the commit: unlink best effort, a missing file being as good as a removed one. */
    method UnlinkAll(paths: seq<Path>, fails: Path -> bool)
      modifies this`files
      ensures files == old(files) - (set p | p in paths && !fails(p))
    {
      for i := 0 to |paths|
        invariant files == old(files) - (set p | p in paths[..i] && !fails(p))
      {
        assert paths[..i + 1] == paths[..i] + [paths[i]];
        if !fails(paths[i]) { files := files - {paths[i]}; }
      }
      assert paths[..|paths|] == paths;
    }
  }
}
