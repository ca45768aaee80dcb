/** What each owner's endpoint serves after the tables have changed: from what was pushed to what is read back. */
module Served {
  import opened Basics
  import opened Ledger
  import opened Accounting
  import Keyset
  import MediaPaths
  import Pages = EventPages

  /** The events of one owner, as their endpoint sees them. */
  function TableOf(S: Store, o: Owner): Pages.Store {
    map k | k in S.events && k.owner == o :: k.id := S.events[k]
  }

  /** The blobs of one owner with their recorded sizes. */
  function BlobsOf(S: Store, o: Owner): map<string, nat> {
    map b | b in S.media && b.owner == o :: b.hash := S.media[b]
  }

  lemma TableAt(S: Store, o: Owner, id: Id)
    ensures id in TableOf(S, o) <==> EventKey(o, id) in S.events
    ensures id in TableOf(S, o) ==> TableOf(S, o)[id] == S.events[EventKey(o, id)]
  {
    if EventKey(o, id) in S.events { assert EventKey(o, id).id == id; }
  }

  lemma BlobAt(S: Store, o: Owner, hash: string)
    ensures hash in BlobsOf(S, o) <==> MediaPaths.Blob(o, hash) in S.media
    ensures hash in BlobsOf(S, o) ==> BlobsOf(S, o)[hash] == S.media[MediaPaths.Blob(o, hash)]
  {
    if MediaPaths.Blob(o, hash) in S.media { assert MediaPaths.Blob(o, hash).hash == hash; }
  }

  lemma SameTable(S: Store, S': Store, o: Owner)
    requires forall id :: (EventKey(o, id) in S'.events <==> EventKey(o, id) in S.events)
                          && (EventKey(o, id) in S.events ==> S'.events[EventKey(o, id)] == S.events[EventKey(o, id)])
    ensures TableOf(S', o) == TableOf(S, o)
  {
    forall id ensures id in TableOf(S', o) <==> id in TableOf(S, o) { TableAt(S, o, id); TableAt(S', o, id); }
    forall id | id in TableOf(S, o) ensures TableOf(S', o)[id] == TableOf(S, o)[id] {
      TableAt(S, o, id);
      TableAt(S', o, id);
    }
  }

  lemma SameBlobs(S: Store, S': Store, o: Owner)
    requires forall b :: b in S'.media && b.owner == o ==> b in S.media
    requires forall b :: b in S.media && b.owner == o ==> b in S'.media && S'.media[b] == S.media[b]
    ensures BlobsOf(S', o) == BlobsOf(S, o)
  {
    forall h ensures h in BlobsOf(S', o) <==> h in BlobsOf(S, o) { BlobAt(S, o, h); BlobAt(S', o, h); }
    forall h | h in BlobsOf(S, o) ensures BlobsOf(S', o)[h] == BlobsOf(S, o)[h] { BlobAt(S, o, h); BlobAt(S', o, h); }
  }

  /** `i` is where a list in key order has the row of `id`: exactly the smaller keys come before it. */
  ghost predicate InPlace(rows: seq<Pages.Entry>, i: nat, id: Id) {
    && i < |rows| && rows[i].id == id
    && forall j :: 0 <= j < |rows| && j != i ==>
         if j < i then Pages.Before(rows[j], rows[i]) else Pages.Before(rows[i], rows[j])
  }

  /**
   * From push to read: an item that a stored batch brings under a new id is served, with its type and payload as they
   * came, to every client that reads the whole of `/events` afterwards, at the place its header's time gives it, or the
   * time of the push if it is no event.
   */
  lemma PushedIsServed(c: Config, S: Store, o: Owner, items: seq<Item>, now: int, id: Id, list: seq<Pages.Entry>,
                       n: nat, maxRows: int, budget: int) returns (i: nat)
    requires PushEvents(c, S, o, items, now).1.Stored? && EventKey(o, id) !in S.events
    requires FirstFor(c, items, id).Some?
    requires Pages.Lists(list, TableOf(PushEvents(c, S, o, items, now).0, o)) && n > |list|
    ensures var w, item := Pages.EventsWalk(Keyset.Still(list, n), None, None, maxRows, budget),
                           FirstFor(c, items, id).value;
            && InPlace(w.rows, i, id) && Records(c, item, now, w.rows[i].row)
            && Pages.Served(w.rows)[i] == Pages.ServedPayload(item.itemType, item.payload)
  {
    hide PushEvents, Pages.EventsWalk, FirstFor, Records;
    var S' := PushEvents(c, S, o, items, now).0;
    var k := EventKey(o, id);
    PushStores(c, S, o, items, now, id);
    Pages.EventsAsked(list, n, 0, [], maxRows, budget);
    TableAt(S', o, id);
    var e := Pages.Entry(id, S'.events[k]);
    assert Pages.Stored(e, TableOf(S', o)) && e in list;
    i :| 0 <= i < |list| && list[i] == e;
    RecordedAs(c, FirstFor(c, items, id).value, now, S'.events[k]);
  }

  lemma RecordedAs(c: Config, item: Item, now: int, row: Row)
    requires Records(c, item, now, row)
    ensures row.payload == item.payload && row.itemType == item.itemType
  {
  }

  /** A push, whatever comes of it, changes nothing for anybody else, and no blobs. */
  lemma PushServesOthers(c: Config, S: Store, o: Owner, items: seq<Item>, now: int, x: Owner)
    ensures var S' := PushEvents(c, S, o, items, now).0;
            (x != o ==> TableOf(S', x) == TableOf(S, x)) && BlobsOf(S', x) == BlobsOf(S, x)
  {
    hide PushEvents, TableOf, BlobsOf;
    var r := PushEvents(c, S, o, items, now);
    if r.1.Stored? {
      PushStores(c, S, o, items, now, []);
      if x != o { SameTable(S, r.0, x); }
      SameBlobs(S, r.0, x);
    } else {
      assert r.0 == S by { NotStored(c, S, o, items, now); }
    }
  }

  lemma NotStored(c: Config, S: Store, o: Owner, items: seq<Item>, now: int)
    requires !PushEvents(c, S, o, items, now).1.Stored?
    ensures PushEvents(c, S, o, items, now).0 == S
  {
  }

  /** A delete takes the named events of its owner away, and nothing else of anybody's. */
  lemma DeleteServes(S: Store, o: Owner, ids: seq<Id>, x: Owner)
    ensures var S' := DeleteEvents(S, o, ids);
            && TableOf(S', x) == TableOf(S, x) - (if x == o then set i | i in ids else {})
            && BlobsOf(S', x) == BlobsOf(S, x) && S'.owners == S.owners
  {
    hide TableOf;
    var S' := DeleteEvents(S, o, ids);
    var gone: set<Id> := if x == o then set i | i in ids else {};
    forall id
      ensures id in TableOf(S', x) <==> id in TableOf(S, x) - gone
      ensures id in TableOf(S', x) ==> TableOf(S', x)[id] == TableOf(S, x)[id]
    {
      TableAt(S, x, id);
      TableAt(S', x, id);
    }
    assert TableOf(S', x) == TableOf(S, x) - gone;
  }

  /** An unpair leaves nothing of its owner and everything of everybody else. */
  lemma UnpairServes(S: Store, o: Owner, x: Owner)
    ensures var S' := Unpair(S, o);
            && TableOf(S', x) == (if x == o then map[] else TableOf(S, x))
            && BlobsOf(S', x) == (if x == o then map[] else BlobsOf(S, x))
            && S'.owners == S.owners - {o}
  {
    var S' := Unpair(S, o);
    if x != o {
      SameTable(S, S', x);
      SameBlobs(S, S', x);
    }
  }

  /** A pairing gives its owner a limit, or leaves the one they have, and touches no table. */
  lemma PairServes(S: Store, o: Owner, cap: Option<int>, c: Config, x: Owner)
    ensures var S' := Pair(S, o, cap);
            && TableOf(S', x) == TableOf(S, x) && BlobsOf(S', x) == BlobsOf(S, x)
            && S'.owners.Keys == S.owners.Keys + {o}
            && OwnLimit(c, S', x) == (if x == o && o !in S.owners then (if cap.Some? then cap.value else c.perOwner)
                                      else OwnLimit(c, S, x))
  {
    hide TableOf, BlobsOf;
    var S' := Pair(S, o, cap);
    SameTable(S, S', x);
    SameBlobs(S, S', x);
  }
}
