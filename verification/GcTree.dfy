/** A directory tree as a set of paths, and walking it with an explicit stack. */
module GcTree {
  import opened Basics
  import opened MediaPaths

  /** `p` lies strictly below the directory `d`. */
  predicate Under(d: Path, p: Path) { d <= p && |d| < |p| }

  /**
   * Everything that exists has its parent directory; nothing is both file and directory; `[]` is the media directory.
   */
  ghost predicate Tree(files: set<Path>, dirs: set<Path>) {
    && files !! dirs && [] !in files
    && (forall p :: p in files + dirs && p != [] ==> p[..|p| - 1] in dirs)
  }

  lemma {:induction false} Ancestors(files: set<Path>, dirs: set<Path>, p: Path, n: nat)
    requires Tree(files, dirs) && p in files + dirs && n < |p|
    ensures p[..n] in dirs
    decreases |p|
  {
    var up := p[..|p| - 1];
    if n < |up| {
      Ancestors(files, dirs, up, n);
      assert up[..n] == p[..n];
    }
  }

  function Children(files: set<Path>, dirs: set<Path>, d: Path): set<Path> {
    set p | p in files + dirs && |p| == |d| + 1 && d <= p
  }

  /** Distinct entries, none inside another. */
  predicate Antichain(s: seq<Path>) {
    forall i, j :: 0 <= i < |s| && 0 <= j < |s| && i != j ==> !(s[i] <= s[j])
  }

  /** The directories still to be visited: those on the stack and all below them. */
  function Pending(dirs: set<Path>, stack: seq<Path>): set<Path> {
    set p | p in dirs && exists i :: 0 <= i < |stack| && stack[i] <= p
  }

  lemma PrefixesCompare(a: Path, b: Path, p: Path)
    requires a <= p && b <= p
    ensures a <= b || b <= a
  {
    assert a == p[..|a|] && b == p[..|b|];
  }

  lemma ApartFromKid(a: Path, d: Path, k: Path)
    requires !(a <= d) && !(d <= a) && d <= k
    ensures !(a <= k) && !(k <= a)
  {
    if a <= k { PrefixesCompare(a, d, k); }
  }

  /** Replacing a directory on the stack by some of its children keeps the stack free of overlap. */
  lemma KidsApart(stack: seq<Path>, d: Path, kids: seq<Path>)
    requires Antichain(stack + [d]) && NoDup(kids) && forall k :: k in kids ==> |k| == |d| + 1 && d <= k
    ensures Antichain(stack + kids)
  {
    var all, was := stack + kids, stack + [d];
    assert was[|stack|] == d && forall i :: 0 <= i < |stack| ==> was[i] == stack[i];
    forall i, j | 0 <= i < |all| && 0 <= j < |all| && i != j ensures !(all[i] <= all[j]) {
      if i < |stack| && j < |stack| {
        assert was[i] == all[i] && was[j] == all[j];
      } else if i < |stack| {
        assert all[j] in kids;
        ApartFromKid(was[i], d, all[j]);
      } else if j < |stack| {
        assert all[i] in kids;
        ApartFromKid(was[j], d, all[i]);
      } else {
        assert all[i] in kids && all[j] in kids && all[i] != all[j];
      }
    }
  }

  lemma FewerPending(dirs: set<Path>, stack: seq<Path>, d: Path, kids: seq<Path>)
    requires Antichain(stack + [d]) && forall k :: k in kids ==> k in dirs && |k| == |d| + 1 && d <= k
    ensures var was, now := Pending(dirs, stack + [d]), Pending(dirs, stack + kids);
            now <= was && (d in dirs ==> |now| < |was|)
            && (kids == [] ==> |now| <= |was|)
  {
    var was, now := Pending(dirs, stack + [d]), Pending(dirs, stack + kids);
    assert (stack + [d])[|stack|] == d;
    forall p | p in now ensures p in was {
      var i :| 0 <= i < |stack + kids| && (stack + kids)[i] <= p;
      if i < |stack| {
        assert (stack + [d])[i] <= p;
      } else {
        assert (stack + kids)[i] in kids && (stack + [d])[|stack|] <= p;
      }
    }
    assert d !in now by {
      forall i | 0 <= i < |stack + kids| ensures !((stack + kids)[i] <= d) {
        if i < |stack| { assert (stack + [d])[i] == stack[i]; } else { assert (stack + kids)[i] in kids; }
      }
    }
    if d in dirs { assert d in was; SmallerSubset(now, was, d); } else { SubsetSize(now, was); }
  }

  lemma SmallerSubset<T>(a: set<T>, b: set<T>, x: T)
    requires a <= b && x in b && x !in a
    ensures |a| < |b|
  {
    SubsetSize(a, b - {x});
  }

  /** A file below `d` is one of its children or lies below one of its child directories. */
  lemma ChildOnTheWay(files: set<Path>, dirs: set<Path>, d: Path, f: Path)
    requires Tree(files, dirs) && f in files && Under(d, f)
    ensures var c := f[..|d| + 1]; c in Children(files, dirs, d) && (c == f || (c in dirs && Under(c, f)))
  {
    var c := f[..|d| + 1];
    assert d <= c;
    if |c| < |f| { Ancestors(files, dirs, f, |c|); } else { assert c == f; }
  }

  // ---- the walk -------------------------------------------------------------------------

  predicate OnStack(stack: seq<Path>, f: Path) { exists s :: s in stack && Under(s, f) }

  ghost predicate Walking(files: set<Path>, dirs: set<Path>, root: Path, stack: seq<Path>, found: seq<Path>) {
    && Antichain(stack) && (forall s :: s in stack ==> root <= s)
    && NoDup(found) && (forall f :: f in found ==> f in files && Under(root, f))
    && (forall f, s :: f in found && s in stack ==> !(s <= f))
  }

  ghost predicate AllSeen(files: set<Path>, root: Path, stack: seq<Path>, found: seq<Path>) {
    forall f :: f in files && Under(root, f) ==> f in found || OnStack(stack, f)
  }

  lemma WalkStarts(files: set<Path>, dirs: set<Path>, root: Path)
    ensures Walking(files, dirs, root, [root], []) && AllSeen(files, root, [root], [])
  {
    forall f | f in files && Under(root, f) ensures OnStack([root], f) { assert root in [root]; }
  }

  lemma WalkEnds(files: set<Path>, dirs: set<Path>, root: Path, found: seq<Path>)
    requires Walking(files, dirs, root, [], found)
    ensures NoDup(found) && forall f :: f in found ==> f in files && Under(root, f)
    ensures AllSeen(files, root, [], found) ==> forall f :: f in files && Under(root, f) ==> f in found
  {
  }

  /** One turn of the walk keeps its invariant and makes progress. */
  lemma WalkStep(files: set<Path>, dirs: set<Path>, root: Path, rest: seq<Path>, d: Path, entries: seq<Path>,
                 kids: seq<Path>,
                 plain: seq<Path>, found: seq<Path>, unread: bool)
    requires Tree(files, dirs) && Walking(files, dirs, root, rest + [d], found)
    requires if unread then entries == [] else Enumerates(entries, Children(files, dirs, d))
    requires NoDup(kids) && forall p :: p in kids <==> p in entries && p in dirs
    requires NoDup(plain) && forall p :: p in plain <==> p in entries && p !in dirs
    ensures Walking(files, dirs, root, rest + kids, found + plain)
    ensures !unread && AllSeen(files, root, rest + [d], found) ==> AllSeen(files, root, rest + kids, found + plain)
    ensures |Pending(dirs, rest + kids)| <= |Pending(dirs, rest + [d])|
    ensures kids == [] || |Pending(dirs, rest + kids)| < |Pending(dirs, rest + [d])|
  {
    assert forall e :: e in entries ==> e in Children(files, dirs, d);
    WalkKeeps(files, dirs, root, rest, d, kids, plain, found);
    PendingShrinks(files, dirs, rest, d, kids);
    if !unread && AllSeen(files, root, rest + [d], found) {
      hide Walking, Pending, Tree;
      forall f | f in files && Under(root, f) ensures f in found + plain || OnStack(rest + kids, f) {
        if f !in found { StillSeen(files, dirs, rest, d, entries, kids, plain, f); }
      }
    }
  }

  lemma WalkKeeps(files: set<Path>, dirs: set<Path>, root: Path, rest: seq<Path>, d: Path, kids: seq<Path>,
                  plain: seq<Path>, found: seq<Path>)
    requires Walking(files, dirs, root, rest + [d], found)
    requires NoDup(kids) && NoDup(plain) && (forall p :: p in plain ==> p !in kids && p in files)
    requires forall p :: p in kids || p in plain ==> |p| == |d| + 1 && d <= p
    ensures Walking(files, dirs, root, rest + kids, found + plain)
  {
    assert d in rest + [d];
    KidsApart(rest, d, kids);
    PlainApart(rest, d, kids, plain, found);
    forall s | s in rest + kids ensures root <= s {
      if s in rest { assert s in rest + [d]; } else { Below(root, d, s); }
    }
    forall f | f in plain ensures Under(root, f) { Below(root, d, f); }
  }

  lemma Below(root: Path, d: Path, p: Path)
    requires root <= d && d <= p
    ensures root <= p
  {
  }

  lemma PendingShrinks(files: set<Path>, dirs: set<Path>, rest: seq<Path>, d: Path, kids: seq<Path>)
    requires Tree(files, dirs) && Antichain(rest + [d])
    requires forall k :: k in kids ==> k in dirs && k in Children(files, dirs, d)
    ensures |Pending(dirs, rest + kids)| <= |Pending(dirs, rest + [d])|
    ensures kids == [] || |Pending(dirs, rest + kids)| < |Pending(dirs, rest + [d])|
  {
    FewerPending(dirs, rest, d, kids);
    SubsetSize(Pending(dirs, rest + kids), Pending(dirs, rest + [d]));
    if kids != [] { assert kids[0] in kids && kids[0][..|kids[0]| - 1] == d; }
  }

  lemma StillSeen(files: set<Path>, dirs: set<Path>, rest: seq<Path>, d: Path, entries: seq<Path>, kids: seq<Path>,
                  plain: seq<Path>, f: Path)
    requires Tree(files, dirs) && Enumerates(entries, Children(files, dirs, d)) && f in files && OnStack(rest + [d], f)
    requires forall p :: p in kids <==> p in entries && p in dirs
    requires forall p :: p in plain <==> p in entries && p !in dirs
    ensures f in plain || OnStack(rest + kids, f)
  {
    var s :| s in rest + [d] && Under(s, f);
    if s == d {
      ChildOnTheWay(files, dirs, d, f);
      var c := f[..|d| + 1];
      assert c in entries;
      if c in dirs { assert c in rest + kids && Under(c, f); } else { assert c == f && c in plain; }
    } else {
      assert s in rest + kids;
    }
  }

  lemma NoDupJoin<T>(a: seq<T>, b: seq<T>)
    requires NoDup(a) && NoDup(b) && forall x :: x in b ==> x !in a
    ensures NoDup(a + b)
  {
    forall i, j | 0 <= i < j < |a + b| ensures (a + b)[i] != (a + b)[j] {
      if i < |a| <= j { assert b[j - |a|] in b && a[i] in a; }
    }
  }

  lemma PlainApart(rest: seq<Path>, d: Path, kids: seq<Path>, plain: seq<Path>, found: seq<Path>)
    requires Antichain(rest + [d]) && forall p :: p in kids || p in plain ==> |p| == |d| + 1 && d <= p
    requires NoDup(plain) && NoDup(found) && (forall p :: p in plain ==> p !in kids)
    requires forall f, s :: f in found && s in rest + [d] ==> !(s <= f)
    ensures NoDup(found + plain) && forall f, s :: f in found + plain && s in rest + kids ==> !(s <= f)
  {
    assert d in rest + [d];
    NoDupJoin(found, plain);
    forall f, s | f in found + plain && s in rest + kids ensures !(s <= f) {
      if f in found {
        if s in rest { assert s in rest + [d]; } else { assert !(d <= f); }
      } else if s in rest {
        var i :| 0 <= i < |rest| && rest[i] == s;
        assert (rest + [d])[i] == s && (rest + [d])[|rest|] == d;
        ApartFromKid(s, d, f);
      } else {
        assert s in kids && f in plain && s != f;
      }
    }
  }
}
