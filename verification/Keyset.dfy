/**
 * Keyset paging in general: a list in strict order is served page by page, each request asking for what lies past the
 * last row of the page before. The list may be different at every request.
 */
module Keyset {
  import opened Basics

  ghost predicate StrictOrder<E(!new)>(lt: (E, E) -> bool) {
    && (forall a :: !lt(a, a))
    && (forall a, b, c :: lt(a, b) && lt(b, c) ==> lt(a, c))
  }

  predicate Ascending<E>(lt: (E, E) -> bool, s: seq<E>) {
    forall i, j :: 0 <= i < j < |s| ==> lt(s[i], s[j])
  }

  ghost predicate SameMembers<E(!new)>(s: seq<E>, t: seq<E>) { forall e :: e in s <==> e in t }

  /** `WHERE`: the rows that satisfy a condition, in their order. */
  function Select<E>(s: seq<E>, p: E -> bool): seq<E> {
    if s == [] then [] else (if p(s[0]) then [s[0]] else []) + Select(s[1..], p)
  }

  lemma {:induction false} SelectMembers<E>(s: seq<E>, p: E -> bool)
    ensures forall e :: e in Select(s, p) <==> e in s && p(e)
  {
    if s != [] {
      SelectMembers(s[1..], p);
      assert s == [s[0]] + s[1..];
    }
  }

  lemma {:induction false} SelectAscends<E(!new)>(lt: (E, E) -> bool, s: seq<E>, p: E -> bool)
    requires Ascending(lt, s)
    ensures Ascending(lt, Select(s, p))
  {
    if s != [] {
      var rest := s[1..];
      SelectAscends(lt, rest, p);
      SelectMembers(rest, p);
      forall i | 0 <= i < |Select(rest, p)| ensures lt(s[0], Select(rest, p)[i]) {
        assert Select(rest, p)[i] in rest;
      }
    }
  }

  lemma SomeMember<E(!new)>(s: seq<E>)
    requires s != []
    ensures exists e :: e in s
  {
    assert s[0] in s;
  }

  lemma Asymmetric<E(!new)>(lt: (E, E) -> bool, a: E, b: E)
    requires StrictOrder(lt)
    ensures !lt(a, b) || !lt(b, a)
  {
  }

  lemma HeadIsLeast<E>(lt: (E, E) -> bool, s: seq<E>, e: E)
    requires Ascending(lt, s) && e in s
    ensures e == s[0] || lt(s[0], e)
  {
  }

  /** Strictly ordered lists with the same members are the same list. */
  lemma {:induction false} OrderDecides<E(!new)>(lt: (E, E) -> bool, s: seq<E>, t: seq<E>)
    requires StrictOrder(lt) && Ascending(lt, s) && Ascending(lt, t) && SameMembers(s, t)
    ensures s == t
    decreases |s|
  {
    if s == [] {
      if t != [] { SomeMember(t); assert false; }
    } else {
      assert s[0] in t && t != [] && t[0] in s;
      HeadIsLeast(lt, t, s[0]);
      HeadIsLeast(lt, s, t[0]);
      Asymmetric(lt, s[0], t[0]);
      assert s == [s[0]] + s[1..] && t == [t[0]] + t[1..];
      forall e ensures e in s[1..] <==> e in t[1..] {
        assert (e in s <==> e in t) && !lt(e, e);
        if e in s[1..] { var i :| 0 <= i < |s| - 1 && s[1..][i] == e; assert lt(s[0], s[i + 1]); }
        if e in t[1..] { var i :| 0 <= i < |t| - 1 && t[1..][i] == e; assert lt(t[0], t[i + 1]); }
      }
      OrderDecides(lt, s[1..], t[1..]);
    }
  }

  // ---- walking a list ------------------------------------------------------------

  /** What a client has after some requests: the rows, whether the last page was final, how many requests were made. */
  datatype Walked<E> = Walked(rows: seq<E>, done: bool, requests: nat)

  /**
   * One request per list. `p` is the condition of the next request, `take` says how many of the matching rows make a
   * page, and `next` is the condition of the request that echoes a given last row.
   */
  function Walk<E>(lists: seq<seq<E>>, p: E -> bool, next: E -> E -> bool, take: seq<E> -> nat): Walked<E>
    decreases |lists|
  {
    if lists == [] then Walked([], false, 0)
    else
      var rows := Select(lists[0], p);
      var n := take(rows);
      if n == 0 || n >= |rows| then Walked(rows, true, 1)
      else
        var w := Walk(lists[1..], next(rows[n - 1]), next, take);
        Walked(rows[..n] + w.rows, w.done, w.requests + 1)
  }

  /** Echoing a row asks for exactly the wanted rows past it. */
  ghost predicate Resumes<E(!new)>(lt: (E, E) -> bool, p: E -> bool, next: E -> E -> bool) {
    forall a, e :: p(a) ==> (next(a)(e) <==> p(e) && lt(a, e))
  }

  /** A page of a non-empty range is not empty. */
  ghost predicate Advances<E(!new)>(take: seq<E> -> nat) {
    forall s :: s != [] ==> 0 < take(s) <= |s|
  }

  /** Present in every list a walk of `n` requests looked at. */
  predicate Throughout<E(==)>(e: E, lists: seq<seq<E>>, n: nat) {
    forall i :: 0 <= i < n && i < |lists| ==> e in lists[i]
  }

  lemma ResumesOn<E(!new)>(lt: (E, E) -> bool, p: E -> bool, next: E -> E -> bool, last: E)
    requires StrictOrder(lt) && Resumes(lt, p, next) && p(last)
    ensures Resumes(lt, next(last), next)
  {
    forall a, e | next(last)(a) ensures next(a)(e) <==> next(last)(e) && lt(a, e) {
      assert p(a) && lt(last, a);
      if lt(a, e) { assert lt(last, e); }
    }
  }

  lemma {:induction false} WalkRequests<E>(lists: seq<seq<E>>, p: E -> bool, next: E -> E -> bool, take: seq<E> -> nat)
    ensures Walk(lists, p, next, take).requests <= |lists|
    decreases |lists|
  {
    if lists != [] {
      var rows := Select(lists[0], p);
      var n := take(rows);
      if !(n == 0 || n >= |rows|) { WalkRequests(lists[1..], next(rows[n - 1]), next, take); }
    }
  }

  /** However the list changes between requests, the rows received ascend strictly and each was there when served. */
  lemma {:induction false} WalkAscends<E(!new)>(lt: (E, E) -> bool, lists: seq<seq<E>>, p: E -> bool,
                                                next: E -> E -> bool,
                                                take: seq<E> -> nat)
    requires StrictOrder(lt) && Resumes(lt, p, next)
    requires forall i :: 0 <= i < |lists| ==> Ascending(lt, lists[i])
    ensures var w := Walk(lists, p, next, take);
            && Ascending(lt, w.rows)
            && forall e :: e in w.rows ==> p(e) && exists i :: 0 <= i < w.requests && i < |lists| && e in lists[i]
    decreases |lists|
  {
    if lists != [] {
      var rows := Select(lists[0], p);
      var n := take(rows);
      SelectMembers(lists[0], p);
      SelectAscends(lt, lists[0], p);
      if !(n == 0 || n >= |rows|) {
        var last := rows[n - 1];
        assert last in rows;
        ResumesOn(lt, p, next, last);
        var rest := lists[1..];
        WalkAscends(lt, rest, next(last), next, take);
        var w := Walk(rest, next(last), next, take);
        forall e | e in w.rows
          ensures lt(last, e) && p(e) && exists i :: 0 <= i < w.requests + 1 && i < |lists| && e in lists[i]
        {
          var i :| 0 <= i < w.requests && i < |rest| && e in rest[i];
          assert lists[i + 1] == rest[i];
        }
        JoinAscends(lt, rows[..n], w.rows);
        forall e | e in rows[..n] ensures p(e) && e in lists[0] { assert e in rows; }
      }
    }
  }

  lemma JoinAscends<E(!new)>(lt: (E, E) -> bool, a: seq<E>, b: seq<E>)
    requires StrictOrder(lt) && a != [] && Ascending(lt, a) && Ascending(lt, b)
    requires forall e :: e in b ==> lt(a[|a| - 1], e)
    ensures Ascending(lt, a + b)
  {
    forall i, j | 0 <= i < j < |a + b| ensures lt((a + b)[i], (a + b)[j]) {
      if i < |a| <= j {
        assert b[j - |a|] in b && lt(a[|a| - 1], b[j - |a|]);
        if i < |a| - 1 { assert lt(a[i], a[|a| - 1]); }
      }
    }
  }

  /**
   * However the list changes between requests, a finished walk has every wanted row that was there at every request.
   */
  lemma {:induction false} WalkComplete<E(!new)>(lt: (E, E) -> bool, lists: seq<seq<E>>, p: E -> bool,
                                                 next: E -> E -> bool,
                                                 take: seq<E> -> nat, e: E)
    requires StrictOrder(lt) && Resumes(lt, p, next) && Advances(take)
    requires forall i :: 0 <= i < |lists| ==> Ascending(lt, lists[i])
    ensures var w := Walk(lists, p, next, take); w.done && p(e) && Throughout(e, lists, w.requests) ==> e in w.rows
    decreases |lists|
  {
    var all := Walk(lists, p, next, take);
    if lists != [] && all.done && p(e) && Throughout(e, lists, all.requests) {
      var rows := Select(lists[0], p);
      var n := take(rows);
      SelectMembers(lists[0], p);
      SelectAscends(lt, lists[0], p);
      assert e in lists[0];
      if !(n == 0 || n >= |rows|) {
        var last := rows[n - 1];
        assert last in rows;
        ResumesOn(lt, p, next, last);
        var k :| 0 <= k < |rows| && rows[k] == e;
        if k < n {
          assert e == rows[..n][k];
        } else {
          assert lt(last, e);
          var rest := lists[1..];
          var w := Walk(rest, next(last), next, take);
          forall i | 0 <= i < w.requests && i < |rest| ensures e in rest[i] { assert e in lists[i + 1]; }
          WalkComplete(lt, rest, next(last), next, take, e);
        }
      }
    }
  }

  // ---- a list that does not change ------------------------------------------------------

  function Still<E>(list: seq<E>, n: nat): seq<seq<E>> { seq(n, i => list) }

  /** On a list that stays put, one request more than there are wanted rows always finishes. */
  lemma {:induction false} StillFinishes<E(!new)>(lt: (E, E) -> bool, list: seq<E>, n: nat, p: E -> bool,
                                                  next: E -> E -> bool,
                                                  take: seq<E> -> nat)
    requires StrictOrder(lt) && Resumes(lt, p, next) && Advances(take) && Ascending(lt, list) && |Select(list, p)| < n
    ensures Walk(Still(list, n), p, next, take).done
    decreases n
  {
    var rows := Select(list, p);
    var k := take(rows);
    if !(k == 0 || k >= |rows|) {
      var last := rows[k - 1];
      RestAfter(lt, list, p, next, k);
      SelectMembers(list, p);
      assert last in rows;
      ResumesOn(lt, p, next, last);
      StillFinishes(lt, list, n - 1, next(last), next, take);
      assert Still(list, n)[1..] == Still(list, n - 1);
    }
  }

  /** Past the `k`-th wanted row there are exactly the wanted rows from the next one on. */
  lemma RestAfter<E(!new)>(lt: (E, E) -> bool, list: seq<E>, p: E -> bool, next: E -> E -> bool, k: nat)
    requires StrictOrder(lt) && Resumes(lt, p, next) && Ascending(lt, list) && 0 < k <= |Select(list, p)|
    ensures Select(list, next(Select(list, p)[k - 1])) == Select(list, p)[k..]
  {
    var rows := Select(list, p);
    var last := rows[k - 1];
    SelectMembers(list, p);
    SelectMembers(list, next(last));
    SelectAscends(lt, list, p);
    SelectAscends(lt, list, next(last));
    assert last in rows;
    forall e ensures e in Select(list, next(last)) <==> e in rows[k..] {
      if e in rows {
        var i :| 0 <= i < |rows| && rows[i] == e;
        if i >= k { assert lt(last, rows[i]) && rows[k..][i - k] == e; }
        if i < k - 1 { assert lt(rows[i], last); }
        if e in rows[k..] {
          var j :| 0 <= j < |rows| - k && rows[k..][j] == e;
          assert lt(last, rows[k + j]);
        }
      }
    }
    OrderDecides(lt, Select(list, next(last)), rows[k..]);
  }

  /** On a list that stays put, a finished walk has received exactly the wanted rows, in order. */
  lemma StillIsWhole<E(!new)>(lt: (E, E) -> bool, list: seq<E>, n: nat, p: E -> bool, next: E -> E -> bool,
                              take: seq<E> -> nat)
    requires StrictOrder(lt) && Resumes(lt, p, next) && Advances(take) && Ascending(lt, list)
    ensures var w := Walk(Still(list, n), p, next, take); w.done ==> w.rows == Select(list, p)
  {
    var lists := Still(list, n);
    var w := Walk(lists, p, next, take);
    if w.done {
      WalkAscends(lt, lists, p, next, take);
      SelectMembers(list, p);
      SelectAscends(lt, list, p);
      forall e ensures e in w.rows <==> e in Select(list, p) {
        if e in Select(list, p) { WalkComplete(lt, lists, p, next, take, e); }
      }
      OrderDecides(lt, w.rows, Select(list, p));
    }
  }
}
