/** `GET /events`, `GET /manifest` and `GET /media-manifest` of one owner: queries, pages, and whole walks. */
module EventPages {
  import opened Basics
  import opened Keyset

  type Id = seq<byte>

  datatype Row = Row(at: int, msgSeq: int, nonce: seq<byte>, payload: seq<byte>, itemType: seq<byte>)

  /** A row of `served_events` with its id; `size` is the length of the payload. */
  datatype Entry = Entry(id: Id, row: Row)

  /** The rows of one owner; `(pubkey, id)` is the primary key. */
  type Store = map<Id, Row>

  // ---- the order --------------------------------------------------------------------

  /** Text compares byte by byte, a proper prefix first. */
  predicate IdLt(a: Id, b: Id) {
    b != [] && (a == [] || a[0] < b[0] || (a[0] == b[0] && IdLt(a[1..], b[1..])))
  }

  predicate Before(a: Entry, b: Entry) { a.row.at < b.row.at || (a.row.at == b.row.at && IdLt(a.id, b.id)) }

  predicate Later(a: Entry, b: Entry) { Before(b, a) }

  lemma {:induction false} IdOrder(a: Id, b: Id, c: Id)
    ensures !IdLt(a, a)
    ensures IdLt(a, b) && IdLt(b, c) ==> IdLt(a, c)
    ensures IdLt(a, b) || a == b || IdLt(b, a)
  {
    if a != [] { IdOrder(a[1..], if b == [] then [] else b[1..], if c == [] then [] else c[1..]); }
    if a != [] && b != [] && a[0] == b[0] && a[1..] == b[1..] { assert a == [a[0]] + a[1..] && b == [b[0]] + b[1..]; }
  }

  /** Two ids agree up to some place, where the first ends or has the smaller byte. */
  ghost predicate FirstSmaller(a: Id, b: Id, i: nat) {
    i <= |a| && i < |b| && a[..i] == b[..i] && (i == |a| || a[i] < b[i])
  }

  lemma {:induction false} IdLtExactly(a: Id, b: Id)
    ensures IdLt(a, b) <==> exists i: nat :: FirstSmaller(a, b, i)
  {
    if a == [] || b == [] {
      if b != [] { assert FirstSmaller(a, b, 0); }
    } else {
      IdLtExactly(a[1..], b[1..]);
      if a[0] < b[0] { assert FirstSmaller(a, b, 0); }
      if a[0] == b[0] && IdLt(a[1..], b[1..]) {
        var i: nat :| FirstSmaller(a[1..], b[1..], i);
        assert a[..i + 1] == [a[0]] + a[1..][..i] && b[..i + 1] == [b[0]] + b[1..][..i];
        assert FirstSmaller(a, b, i + 1);
      }
      if i: nat :| FirstSmaller(a, b, i) {
        if i > 0 {
          assert a[..i][0] == b[..i][0] && a[1..][..i - 1] == a[..i][1..] && b[1..][..i - 1] == b[..i][1..];
          assert FirstSmaller(a[1..], b[1..], i - 1);
        }
      }
    }
  }

  lemma IdsOrdered()
    ensures StrictOrder(IdLt)
  {
    forall a ensures !IdLt(a, a) { IdOrder(a, a, a); }
    forall a, b, c | IdLt(a, b) && IdLt(b, c) ensures IdLt(a, c) { IdOrder(a, b, c); }
  }

  lemma KeysOrdered()
    ensures StrictOrder(Before) && StrictOrder(Later)
  {
    IdsOrdered();
  }

  // ---- the sorted table ----------------------------------------------------------------

  predicate Stored(e: Entry, t: Store) { e.id in t && t[e.id] == e.row }

  /** `list` is the whole table in `(created_at, id)` order. */
  ghost predicate Lists(list: seq<Entry>, t: Store) {
    Ascending(Before, list) && forall e :: e in list <==> Stored(e, t)
  }

  lemma {:induction false} Oldest(t: Store) returns (k: Id)
    requires t != map[]
    ensures k in t && forall j :: j in t && j != k ==> Before(Entry(k, t[k]), Entry(j, t[j]))
    decreases |t|
  {
    KeysOrdered();
    var x :| x in t;
    var rest := t - {x};
    assert forall j :: j in t && j != x ==> j in rest;
    if rest == map[] {
      k := x;
    } else {
      var y := Oldest(rest);
      IdOrder(x, y, y);
      k := if Before(Entry(x, t[x]), Entry(y, t[y])) then x else y;
      forall j | j in t && j != k ensures Before(Entry(k, t[k]), Entry(j, t[j])) {
        if j != x && j != y {
          assert j in rest && Before(Entry(y, t[y]), Entry(j, t[j]));
          assert k == x ==> Before(Entry(x, t[x]), Entry(y, t[y]));
        }
      }
    }
  }

  /** Every table has exactly one such listing. */
  lemma {:induction false} Listed(t: Store) returns (list: seq<Entry>)
    ensures Lists(list, t) && forall other :: Lists(other, t) ==> other == list
    decreases |t|
  {
    KeysOrdered();
    if t == map[] {
      list := [];
      forall other | Lists(other, t) ensures other == list {
        assert SameMembers(other, list);
        OrderDecides(Before, other, list);
      }
    } else {
      var k := Oldest(t);
      var rest := Listed(t - {k});
      list := [Entry(k, t[k])] + rest;
      forall i | 0 <= i < |rest| ensures Before(list[0], rest[i]) { assert rest[i] in rest; }
      forall other | Lists(other, t) ensures other == list {
        assert SameMembers(other, list);
        OrderDecides(Before, other, list);
      }
    }
  }

  // ---- GET /events ------------------------------------------------------------------------

  /** The `WHERE` clause of the payload query; an absent parameter is SQL's NULL. */
  predicate Since(e: Entry, since: Option<int>, sinceId: Option<Id>) {
    || since.None?
    || (sinceId.None? && e.row.at >= since.value)
    || e.row.at > since.value
    || (e.row.at == since.value && sinceId.Some? && IdLt(sinceId.value, e.id))
  }

  datatype ServedPayload = ServedPayload(itemType: seq<byte>, payload: seq<byte>)
  datatype Cursor = Cursor(at: int, id: Id)
  datatype EventsPage = EventsPage(items: seq<ServedPayload>, next: Option<Cursor>)

  function Bytes(rows: seq<Entry>): nat {
    if rows == [] then 0 else Bytes(rows[..|rows| - 1]) + |rows[|rows| - 1].row.payload|
  }

  /** A page of `n` rows respects the limits; one row always does. */
  predicate Fits(rows: seq<Entry>, n: nat, maxRows: int, budget: int)
    requires n <= |rows|
  {
    n <= 1 || (n <= maxRows && Bytes(rows[..n]) <= budget)
  }

  lemma {:induction false} BytesGrow(rows: seq<Entry>, n: nat, m: nat)
    requires n <= m <= |rows|
    ensures Bytes(rows[..n]) <= Bytes(rows[..m])
    decreases m
  {
    if n < m {
      BytesGrow(rows, n, m - 1);
      assert rows[..m][..m - 1] == rows[..m - 1];
    }
  }

  /** The length of the longest page that respects the limits, from `n` rows on. */
  function Grow(rows: seq<Entry>, n: nat, maxRows: int, budget: int): (r: nat)
    requires n <= |rows| && Fits(rows, n, maxRows, budget)
    ensures n <= r <= |rows| && Fits(rows, r, maxRows, budget)
    ensures forall m :: r < m <= |rows| ==> !Fits(rows, m, maxRows, budget)
    ensures rows != [] ==> r > 0
    decreases |rows| - n
  {
    if n < |rows| && Fits(rows, n + 1, maxRows, budget) then Grow(rows, n + 1, maxRows, budget)
    else
      assert forall m :: n < m <= |rows| ==> !Fits(rows, m, maxRows, budget) by {
        forall m | n < m <= |rows| ensures !Fits(rows, m, maxRows, budget) { BytesGrow(rows, n + 1, m); }
      }
      n
  }

  function PageLen(rows: seq<Entry>, maxRows: int, budget: int): nat { Grow(rows, 0, maxRows, budget) }

  function Serve(e: Entry): ServedPayload { ServedPayload(e.row.itemType, e.row.payload) }

  function Served(rows: seq<Entry>): seq<ServedPayload> { seq(|rows|, i requires 0 <= i < |rows| => Serve(rows[i])) }

  /**
   * The loop over the query's cursor: the page is the longest prefix within both limits, but never empty when there
   * are rows; it names its last row exactly when rows are left over.
   */
  method PayloadsPage(rows: seq<Entry>, maxRows: int, budget: int) returns (page: EventsPage)
    ensures var n := PageLen(rows, maxRows, budget);
            && page.items == Served(rows[..n])
            && (page.next.Some? <==> n < |rows|)
            && (page.next.Some? ==> n > 0 && page.next.value == Cursor(rows[n - 1].row.at, rows[n - 1].id))
  {
    hide Bytes, Grow, PageLen, Served;
    var items: seq<ServedPayload> := [];
    var bytes := 0;
    var last: Option<Cursor> := None;
    var truncated := false;
    var i := 0;
    PageStarts(rows, maxRows, budget);
    while i < |rows| && !truncated
      invariant i <= |rows| && |items| == i && items == Served(rows[..i]) && bytes == Bytes(rows[..i])
      invariant Fits(rows, i, maxRows, budget) && PageLen(rows, maxRows, budget) == Grow(rows, i, maxRows, budget)
      invariant i == 0 || last == Some(Cursor(rows[i - 1].row.at, rows[i - 1].id))
      invariant truncated ==> 0 < i < |rows| && !Fits(rows, i + 1, maxRows, budget)
      decreases |rows| - i, !truncated
    {
      var size := |rows[i].row.payload|;
      PageMore(rows, i, maxRows, budget);
      if items != [] && (|items| >= maxRows || bytes + size > budget) {
        truncated := true;
      } else {
        items := items + [Serve(rows[i])];
        bytes := bytes + size;
        last := Some(Cursor(rows[i].row.at, rows[i].id));
        i := i + 1;
      }
    }
    PageEnds(rows, i, maxRows, budget);
    page := EventsPage(items, if truncated then last else None);
  }

  lemma PageStarts(rows: seq<Entry>, maxRows: int, budget: int)
    ensures Served(rows[..0]) == [] && Bytes(rows[..0]) == 0
    ensures PageLen(rows, maxRows, budget) == Grow(rows, 0, maxRows, budget)
  {
  }

  /** One row more. */
  lemma PageMore(rows: seq<Entry>, i: nat, maxRows: int, budget: int)
    requires i < |rows| && Fits(rows, i, maxRows, budget)
    ensures Served(rows[..i + 1]) == Served(rows[..i]) + [Serve(rows[i])] && |Served(rows[..i + 1])| == i + 1
    ensures Bytes(rows[..i + 1]) == Bytes(rows[..i]) + |rows[i].row.payload|
    ensures Fits(rows, i + 1, maxRows, budget) ==>
              Grow(rows, i, maxRows, budget) == Grow(rows, i + 1, maxRows, budget)
  {
    assert rows[..i + 1][..i] == rows[..i];
  }

  lemma PageEnds(rows: seq<Entry>, i: nat, maxRows: int, budget: int)
    requires i <= |rows| && Fits(rows, i, maxRows, budget)
    requires i == |rows| || !Fits(rows, i + 1, maxRows, budget)
    ensures Grow(rows, i, maxRows, budget) == i
  {
  }

  /**
   * Bounds on a page: never more bytes than the budget or the first row alone, never more rows than the limit or one.
   */
  lemma PageBounds(rows: seq<Entry>, maxRows: int, budget: int)
    requires rows != []
    ensures var n := PageLen(rows, maxRows, budget);
            && 0 < n <= |rows| && (Bytes(rows[..n]) <= budget || Bytes(rows[..n]) == |rows[0].row.payload|)
            && (n <= maxRows || n == 1)
  {
    assert rows[..1][..0] == [];
  }

  const PAGE_LIMIT := 500
  const PAGE_BYTE_BUDGET := 4 * 1024 * 1024

  function PayloadBytes(items: seq<ServedPayload>): nat {
    if items == [] then 0 else PayloadBytes(items[..|items| - 1]) + |items[|items| - 1].payload|
  }

  lemma {:induction false} ServedBytes(rows: seq<Entry>)
    ensures PayloadBytes(Served(rows)) == Bytes(rows)
  {
    if rows != [] {
      ServedBytes(rows[..|rows| - 1]);
      assert Served(rows)[..|rows| - 1] == Served(rows[..|rows| - 1]);
    }
  }

  /**
   * One request: at most 500 items, at most 4 MiB unless a single row is larger, and empty only when nothing matches.
   * A page stops short only at one of these limits, and then names its last row.
   */
  method GetEvents(rows: seq<Entry>) returns (page: EventsPage)
    ensures |page.items| <= 500 && (page.items == [] <==> rows == [])
    ensures PayloadBytes(page.items) <= 4194304 || |page.items| == 1
    ensures page.items <= Served(rows) && (page.next.None? <==> page.items == Served(rows))
    ensures page.next.Some? ==>
              var n := |page.items|;
              && 0 < n < |rows| && page.next.value == Cursor(rows[n - 1].row.at, rows[n - 1].id)
              && (n == 500 || PayloadBytes(page.items) + |rows[n].row.payload| > 4194304)
  {
    page := PayloadsPage(rows, PAGE_LIMIT, PAGE_BYTE_BUDGET);
    ghost var n := PageLen(rows, PAGE_LIMIT, PAGE_BYTE_BUDGET);
    if rows != [] { PageBounds(rows, PAGE_LIMIT, PAGE_BYTE_BUDGET); }
    ServedBytes(rows[..n]);
    assert Served(rows)[..n] == Served(rows[..n]);
    if n < |rows| {
      assert !Fits(rows, n + 1, PAGE_LIMIT, PAGE_BYTE_BUDGET);
      assert rows[..n + 1][..n] == rows[..n];
    }
  }

  function EventsTake(maxRows: int, budget: int): seq<Entry> -> nat { rows => PageLen(rows, maxRows, budget) }

  function EventsNext(last: Entry): Entry -> bool { e => Since(e, Some(last.row.at), Some(last.id)) }

  /** A client reading `/events` from `(since, sinceId)` on; at its i-th request the table is listed by `lists[i]`. */
  function EventsWalk(lists: seq<seq<Entry>>, since: Option<int>, sinceId: Option<Id>, maxRows: int,
                      budget: int): Walked<Entry> {
    Walk(lists, (e: Entry) => Since(e, since, sinceId), EventsNext, EventsTake(maxRows, budget))
  }

  lemma EventsResume(since: Option<int>, sinceId: Option<Id>, maxRows: int, budget: int)
    ensures Resumes(Before, (e: Entry) => Since(e, since, sinceId), EventsNext) && Advances(EventsTake(maxRows, budget))
    ensures StrictOrder(Before)
  {
    KeysOrdered();
    IdsOrdered();
  }

  /** Stored, unchanged, at each of the first `n` requests. */
  predicate AtEach(e: Entry, stores: seq<Store>, n: nat)
    requires n <= |stores|
  {
    forall i :: 0 <= i < n ==> Stored(e, stores[i])
  }

  predicate AtSome(e: Entry, stores: seq<Store>, n: nat)
    requires n <= |stores|
  {
    exists i :: 0 <= i < n && Stored(e, stores[i])
  }

  ghost predicate ListsEach(lists: seq<seq<Entry>>, stores: seq<Store>) {
    |lists| == |stores| && forall i :: 0 <= i < |lists| ==> Lists(lists[i], stores[i])
  }

  /**
   * Paging under change: whatever happens to the table between requests, the keys a client receives increase strictly
   * and every row it receives was stored; once the last page is in, it has every row that was stored, unchanged, at
   * each of its requests.
   */
  lemma EventsUnderChange(lists: seq<seq<Entry>>, stores: seq<Store>, since: Option<int>, sinceId: Option<Id>,
                          maxRows: int, budget: int)
    requires ListsEach(lists, stores)
    ensures var w := EventsWalk(lists, since, sinceId, maxRows, budget);
            && w.requests <= |stores| && Ascending(Before, w.rows)
            && (forall e :: e in w.rows ==> Since(e, since, sinceId) && AtSome(e, stores, w.requests))
            && (w.done ==> forall e :: Since(e, since, sinceId) && AtEach(e, stores, w.requests) ==> e in w.rows)
  {
    hide Walk, Resumes, Advances, StrictOrder;
    EventsResume(since, sinceId, maxRows, budget);
    var p := (e: Entry) => Since(e, since, sinceId);
    var w := EventsWalk(lists, since, sinceId, maxRows, budget);
    WalkRequests(lists, p, EventsNext, EventsTake(maxRows, budget));
    WalkAscends(Before, lists, p, EventsNext, EventsTake(maxRows, budget));
    forall e | e in w.rows ensures p(e) && AtSome(e, stores, w.requests) {
      var i :| 0 <= i < w.requests && i < |lists| && e in lists[i];
      assert Lists(lists[i], stores[i]);
    }
    forall e | w.done && p(e) && AtEach(e, stores, w.requests) ensures e in w.rows {
      forall i | 0 <= i < w.requests && i < |lists| ensures e in lists[i] { assert Lists(lists[i], stores[i]); }
      WalkComplete(Before, lists, p, EventsNext, EventsTake(maxRows, budget), e);
    }
  }

  /**
   * Paging refines the plain list: on a table that stays put the pages join to the sorted, filtered list, within one
   * request per row plus one.
   */
  lemma EventsAreTheList(list: seq<Entry>, n: nat, since: Option<int>, sinceId: Option<Id>, maxRows: int, budget: int)
    requires Ascending(Before, list)
    ensures var rows := Select(list, (e: Entry) => Since(e, since, sinceId));
            var w := EventsWalk(Still(list, n), since, sinceId, maxRows, budget);
            (n > |rows| ==> w.done) && (w.done ==> w.rows == rows)
  {
    EventsResume(since, sinceId, maxRows, budget);
    var p := (e: Entry) => Since(e, since, sinceId);
    if n > |Select(list, p)| { StillFinishes(Before, list, n, p, EventsNext, EventsTake(maxRows, budget)); }
    if EventsWalk(Still(list, n), since, sinceId, maxRows, budget).done {
      StillIsWhole(Before, list, n, p, EventsNext, EventsTake(maxRows, budget));
    }
  }

  lemma {:induction false} SelectSame<E>(s: seq<E>, p: E -> bool, q: E -> bool)
    requires forall i :: 0 <= i < |s| ==> p(s[i]) == q(s[i])
    ensures Select(s, p) == Select(s, q)
  {
    if s != [] {
      assert forall i :: 0 <= i < |s[1..]| ==> s[1..][i] == s[i + 1];
      SelectSame(s[1..], p, q);
    }
  }

  /**
   * What a request asks for: without parameters everything; with a time alone, as older clients send it, everything
   * from that time on, that time included; with a time and an id, everything after that row, whether it is still there
   * or not.
   */
  lemma EventsAsked(list: seq<Entry>, n: nat, at: int, id: Id, maxRows: int, budget: int)
    requires Ascending(Before, list) && n > |list|
    ensures EventsWalk(Still(list, n), None, None, maxRows, budget).rows == list
    ensures EventsWalk(Still(list, n), Some(at), None, maxRows, budget).rows
            == Select(list, (e: Entry) => e.row.at >= at)
    ensures forall row: Row :: row.at == at ==>
              EventsWalk(Still(list, n), Some(at), Some(id), maxRows, budget).rows
              == Select(list, (e: Entry) => Before(Entry(id, row), e))
  {
    hide EventsWalk, Ascending;
    SelectAll(list, (e: Entry) => true);
    EventsPart(list, n, None, None, maxRows, budget, (e: Entry) => true);
    EventsPart(list, n, Some(at), None, maxRows, budget, (e: Entry) => e.row.at >= at);
    forall row: Row | row.at == at
      ensures EventsWalk(Still(list, n), Some(at), Some(id), maxRows, budget).rows
              == Select(list, (e: Entry) => Before(Entry(id, row), e))
    {
      EventsPart(list, n, Some(at), Some(id), maxRows, budget, (e: Entry) => Before(Entry(id, row), e));
    }
  }

  lemma EventsPart(list: seq<Entry>, n: nat, since: Option<int>, sinceId: Option<Id>, maxRows: int, budget: int,
                   p: Entry -> bool)
    requires Ascending(Before, list) && n > |list| && forall e :: p(e) == Since(e, since, sinceId)
    ensures EventsWalk(Still(list, n), since, sinceId, maxRows, budget).rows == Select(list, p)
  {
    hide EventsWalk, Since;
    EventsAreTheList(list, n, since, sinceId, maxRows, budget);
    SelectFew(list, (e: Entry) => Since(e, since, sinceId));
    SelectSame(list, p, (e: Entry) => Since(e, since, sinceId));
  }

  lemma {:induction false} SelectFew<E>(s: seq<E>, p: E -> bool)
    ensures |Select(s, p)| <= |s|
  {
    if s != [] { SelectFew(s[1..], p); }
  }

  lemma {:induction false} SelectAll<E>(s: seq<E>, p: E -> bool)
    requires forall i :: 0 <= i < |s| ==> p(s[i])
    ensures Select(s, p) == s
  {
    if s != [] {
      assert forall i :: 0 <= i < |s[1..]| ==> s[1..][i] == s[i + 1];
      SelectAll(s[1..], p);
    }
  }

  // ---- GET /manifest --------------------------------------------------------------------------

  /** The `WHERE` clause of the manifest query. */
  predicate Within(e: Entry, since: Option<int>, until: Option<int>, untilId: Option<Id>) {
    && (since.None? || e.row.at >= since.value)
    && (|| until.None?
        || (untilId.None? && e.row.at <= until.value)
        || e.row.at < until.value
        || (e.row.at == until.value && untilId.Some? && IdLt(e.id, untilId.value)))
  }

  datatype ManifestPage<T> = ManifestPage(rows: seq<T>, hasOlder: bool)

  function Limit<T>(rows: seq<T>, n: nat): seq<T> { if |rows| <= n then rows else rows[..n] }

  /** Fetch one row more than a page holds, and keep a page of them. */
  function PageOf<T>(rows: seq<T>, limit: nat): ManifestPage<T> {
    var fetched := Limit(rows, limit + 1);
    ManifestPage(Limit(fetched, limit), |fetched| > limit)
  }

  const MANIFEST_LIMIT := 1000

  function ManifestTake<T>(rows: seq<T>): nat { |PageOf(rows, MANIFEST_LIMIT).rows| }

  /** A page is the first thousand rows, or all; the flag is set exactly when there are more. */
  lemma PageFlag<T(!new)>(rows: seq<T>)
    ensures var page := PageOf(rows, MANIFEST_LIMIT);
            && |page.rows| == (if |rows| < 1000 then |rows| else 1000)
            && page.rows == rows[..|page.rows|] && (page.hasOlder <==> |page.rows| < |rows|)
            && Advances<T>(ManifestTake)
  {
    assert PageOf(rows, MANIFEST_LIMIT).rows == Limit(rows, MANIFEST_LIMIT);
  }

  function Reversed<T>(s: seq<T>): seq<T> { seq(|s|, i requires 0 <= i < |s| => s[|s| - 1 - i]) }

  /** Newest first; a client pages with the oldest row it has. */
  function ManifestWalk(lists: seq<seq<Entry>>, since: Option<int>, until: Option<int>,
                        untilId: Option<Id>): Walked<Entry> {
    Walk(lists, (e: Entry) => Within(e, since, until, untilId),
         (last: Entry) => (e: Entry) => Within(e, since, Some(last.row.at), Some(last.id)), ManifestTake)
  }

  lemma ManifestResume(since: Option<int>, until: Option<int>, untilId: Option<Id>)
    ensures Resumes(Later, (e: Entry) => Within(e, since, until, untilId),
                    (last: Entry) => (e: Entry) => Within(e, since, Some(last.row.at), Some(last.id)))
    ensures StrictOrder(Later) && Advances<Entry>(ManifestTake)
  {
    KeysOrdered();
    IdsOrdered();
  }

  lemma TurnedAscend(lists: seq<seq<Entry>>, stores: seq<Store>)
    requires ListsEach(lists, stores)
    ensures forall i :: 0 <= i < |lists| ==>
              Ascending(Later, Turned(lists)[i]) && SameMembers(Turned(lists)[i], lists[i])
  {
    forall i | 0 <= i < |lists| ensures Ascending(Later, Turned(lists)[i]) && SameMembers(Turned(lists)[i], lists[i]) {
      assert Lists(lists[i], stores[i]);
      ReversedMembers(lists[i]);
    }
  }

  /** As for `/events`, in the opposite direction. */
  lemma ManifestUnderChange(lists: seq<seq<Entry>>, stores: seq<Store>, since: Option<int>, until: Option<int>,
                            untilId: Option<Id>)
    requires ListsEach(lists, stores)
    ensures var w := ManifestWalk(Turned(lists), since, until, untilId);
            && w.requests <= |stores| && Ascending(Later, w.rows)
            && (forall e :: e in w.rows ==> Within(e, since, until, untilId) && AtSome(e, stores, w.requests))
            && (w.done ==>
                  forall e :: Within(e, since, until, untilId) && AtEach(e, stores, w.requests) ==> e in w.rows)
  {
    hide Walk, Resumes, Advances, StrictOrder;
    ManifestResume(since, until, untilId);
    var turned := Turned(lists);
    var p := (e: Entry) => Within(e, since, until, untilId);
    var next := (last: Entry) => (e: Entry) => Within(e, since, Some(last.row.at), Some(last.id));
    var w := ManifestWalk(turned, since, until, untilId);
    WalkRequests(turned, p, next, ManifestTake);
    TurnedAscend(lists, stores);
    WalkAscends(Later, turned, p, next, ManifestTake);
    forall e | e in w.rows ensures p(e) && AtSome(e, stores, w.requests) {
      var i :| 0 <= i < w.requests && i < |turned| && e in turned[i];
      assert Lists(lists[i], stores[i]) && e in lists[i];
    }
    forall e | w.done && p(e) && AtEach(e, stores, w.requests) ensures e in w.rows {
      forall i | 0 <= i < w.requests && i < |turned| ensures e in turned[i] { assert Lists(lists[i], stores[i]); }
      WalkComplete(Later, turned, p, next, ManifestTake, e);
    }
  }

  function Turned(lists: seq<seq<Entry>>): seq<seq<Entry>> {
    seq(|lists|, i requires 0 <= i < |lists| => Reversed(lists[i]))
  }

  lemma ReversedMembers<T(!new)>(s: seq<T>)
    ensures SameMembers(Reversed(s), s)
  {
    forall e | e in s
      ensures e in Reversed(s)
    {
      var i :| 0 <= i < |s| && s[i] == e; assert Reversed(s)[|s| - 1 - i] == e;
    }
  }

  /** On a table that stays put the manifest pages join to the filtered list, newest first. */
  lemma ManifestIsTheListReversed(list: seq<Entry>, n: nat, since: Option<int>, until: Option<int>, untilId: Option<Id>)
    requires Ascending(Before, list)
    ensures var rows := Select(list, (e: Entry) => Within(e, since, until, untilId));
            var w := ManifestWalk(Still(Reversed(list), n), since, until, untilId);
            (n > |rows| ==> w.done) && (w.done ==> w.rows == Reversed(rows))
  {
    ManifestResume(since, until, untilId);
    KeysOrdered();
    var p := (e: Entry) => Within(e, since, until, untilId);
    var next := (last: Entry) => (e: Entry) => Within(e, since, Some(last.row.at), Some(last.id));
    var rows, back := Select(list, p), Select(Reversed(list), p);
    SelectMembers(list, p);
    SelectMembers(Reversed(list), p);
    SelectAscends(Before, list, p);
    SelectAscends(Later, Reversed(list), p);
    ReversedMembers(list);
    ReversedMembers(rows);
    assert SameMembers(back, Reversed(rows));
    OrderDecides(Later, back, Reversed(rows));
    if n > |rows| { StillFinishes(Later, Reversed(list), n, p, next, ManifestTake); }
    if ManifestWalk(Still(Reversed(list), n), since, until, untilId).done {
      StillIsWhole(Later, Reversed(list), n, p, next, ManifestTake);
    }
  }

  /**
   * What a manifest request asks for: both bounds include their time when they come alone, as older clients send them;
   * an id with the upper one leaves that row and everything newer out.
   */
  lemma ManifestAsked(list: seq<Entry>, n: nat, since: Option<int>, at: int, id: Id)
    requires Ascending(Before, list) && n > |list|
    ensures ManifestWalk(Still(Reversed(list), n), None, None, None).rows == Reversed(list)
    ensures ManifestWalk(Still(Reversed(list), n), since, None, None).rows
            == Reversed(Select(list, (e: Entry) => since.None? || e.row.at >= since.value))
    ensures ManifestWalk(Still(Reversed(list), n), since, Some(at), None).rows
            == Reversed(Select(list, (e: Entry) => (since.None? || e.row.at >= since.value) && e.row.at <= at))
    ensures forall row: Row :: row.at == at ==>
              ManifestWalk(Still(Reversed(list), n), since, Some(at), Some(id)).rows
              == Reversed(Select(list, (e: Entry) =>
                                   (since.None? || e.row.at >= since.value) && Before(e, Entry(id, row))))
  {
    hide ManifestWalk, Reversed;
    ManifestAll(list, n);
    ManifestPart(list, n, since, None, None, (e: Entry) => since.None? || e.row.at >= since.value);
    ManifestPart(list, n, since, Some(at), None,
                 (e: Entry) => (since.None? || e.row.at >= since.value) && e.row.at <= at);
    forall row: Row | row.at == at
      ensures ManifestWalk(Still(Reversed(list), n), since, Some(at), Some(id)).rows
              == Reversed(Select(list, (e: Entry) =>
                                   (since.None? || e.row.at >= since.value) && Before(e, Entry(id, row))))
    {
      ManifestPart(list, n, since, Some(at), Some(id),
                   (e: Entry) => (since.None? || e.row.at >= since.value) && Before(e, Entry(id, row)));
    }
  }

  lemma ManifestPart(list: seq<Entry>, n: nat, since: Option<int>, until: Option<int>, untilId: Option<Id>,
                     p: Entry -> bool)
    requires Ascending(Before, list) && n > |list| && forall e :: p(e) == Within(e, since, until, untilId)
    ensures ManifestWalk(Still(Reversed(list), n), since, until, untilId).rows == Reversed(Select(list, p))
  {
    hide ManifestWalk, Reversed, Within;
    ManifestIsTheListReversed(list, n, since, until, untilId);
    SelectFew(list, (e: Entry) => Within(e, since, until, untilId));
    SelectSame(list, p, (e: Entry) => Within(e, since, until, untilId));
  }

  lemma ManifestAll(list: seq<Entry>, n: nat)
    requires Ascending(Before, list) && n > |list|
    ensures ManifestWalk(Still(Reversed(list), n), None, None, None).rows == Reversed(list)
  {
    hide ManifestWalk, Reversed;
    SelectAll(list, (e: Entry) => true);
    ManifestPart(list, n, None, None, None, (e: Entry) => true);
  }

  // ---- GET /media-manifest -----------------------------------------------------------------------

  function HashesAfter(after: Option<Id>): Id -> bool { h => after.None? || IdLt(after.value, h) }

  function HashesWalk(lists: seq<seq<Id>>, after: Option<Id>): Walked<Id> {
    Walk(lists, HashesAfter(after), (last: Id) => HashesAfter(Some(last)), ManifestTake)
  }

  predicate InSome(h: Id, lists: seq<seq<Id>>, n: nat) { exists i :: 0 <= i < n && i < |lists| && h in lists[i] }

  /**
   * The owner's reconcile sees each hash at most once, in order, only hashes that were stored, and every one stored
   * throughout.
   */
  lemma HashesUnderChange(lists: seq<seq<Id>>, after: Option<Id>)
    requires forall i :: 0 <= i < |lists| ==> Ascending(IdLt, lists[i])
    ensures var w := HashesWalk(lists, after);
            && w.requests <= |lists| && Ascending(IdLt, w.rows)
            && (forall h :: h in w.rows ==> HashesAfter(after)(h) && InSome(h, lists, w.requests))
            && (w.done ==> forall h :: HashesAfter(after)(h) && Throughout(h, lists, w.requests) ==> h in w.rows)
  {
    IdsOrdered();
    var next := (last: Id) => HashesAfter(Some(last));
    assert Resumes(IdLt, HashesAfter(after), next) && Advances<Id>(ManifestTake);
    WalkRequests(lists, HashesAfter(after), next, ManifestTake);
    WalkAscends(IdLt, lists, HashesAfter(after), next, ManifestTake);
    var w := HashesWalk(lists, after);
    forall h | h in w.rows ensures InSome(h, lists, w.requests) {
      var i :| 0 <= i < w.requests && i < |lists| && h in lists[i];
    }
    forall h | w.done && HashesAfter(after)(h) && Throughout(h, lists, w.requests) ensures h in w.rows {
      WalkComplete(IdLt, lists, HashesAfter(after), next, ManifestTake, h);
    }
  }
}
