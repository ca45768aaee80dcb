/** The handlers that change the tables, as they run inside one write transaction each. */
module RelayStore {
  import opened Basics
  import opened Ledger
  import opened Accounting

  class Tables {
    var owners: map<Owner, Option<int>>
    var events: map<EventKey, Row>
    var media: map<Blob, nat>
    const config: Config

    constructor (config: Config)
      ensures this.config == config && Model() == EMPTY
    {
      owners, events, media := map[], map[], map[];
      this.config := config;
    }

    function Model(): Store
      reads this
    {
      Store(owners, events, media)
    }

    /** The one place both kinds of push ask for room. */
    method CheckCapacity(o: Owner, incoming: nat) returns (r: CapCheck)
      ensures r == Check(config, Model(), o, incoming)
    {
      var cap := CapOf(config, Model(), o);
      var sizes := EventSizes(events);
      if cap > 0 {
        var e := SumSizes(Share(sizes, EventOwner, o));
        var m := SumSizes(Share(media, BlobOwner, o));
        if e + m + incoming > cap { return OwnerExceeded; }
      }
      if config.disk > 0 {
        var e := SumSizes(sizes);
        var m := SumSizes(media);
        if e + m + incoming > config.disk { return HostExceeded; }
      }
      r := Fits;
    }

    method IncomingBytes(items: seq<Item>) returns (n: nat)
      ensures n == Incoming(items)
    {
      n := 0;
      for i := 0 to |items|
        invariant n + Incoming(items[i..]) == Incoming(items)
      {
        n := n + |items[i].payload|;
      }
    }

    /** A batch is stored whole or not at all; every item of a stored batch is counted once. */
    method PushBatch(o: Owner, items: seq<Item>, now: int) returns (r: Outcome)
      modifies `events
      ensures (Model(), r) == PushEvents(config, old(Model()), o, items, now)
      ensures r.Stored? ==> r.accepted + r.rejected == |items|
      ensures !r.Stored? ==> events == old(events)
    {
      var incoming := IncomingBytes(items);
      var check := CheckCapacity(o, incoming);
      if !check.Fits? { return CapExceeded(check); }
      var accepted, rejected, table := 0, 0, events;
      for i := 0 to |items|
        invariant accepted + rejected == i
        invariant rejected + Rejected(config, items[i..], now) == Rejected(config, items, now)
        invariant InsertAll(config, table, o, items[i..], now) == InsertAll(config, events, o, items, now)
        invariant o !in owners ==> accepted == 0
      {
        assert items[i..][0] == items[i] && items[i..][1..] == items[i + 1..];
        var row := RowOf(config, items[i], now);
        if row.None? {
          rejected := rejected + 1;
        } else if o !in owners {
          return Failed;
        } else {
          table := InsertItem(config, table, o, items[i], now);
          accepted := accepted + 1;
        }
      }
      events := table;
      r := Stored(accepted, rejected);
    }

    /** Ids that are absent, or named twice, count as missing. */
    method DeleteBatch(o: Owner, ids: seq<Id>) returns (deleted: nat)
      modifies `events
      ensures Model() == DeleteEvents(old(Model()), o, ids)
      ensures deleted == |set k | k in old(events) && k.owner == o && k.id in ids| && deleted <= |ids|
    {
      deleted := 0;
      ghost var gone: set<EventKey> := {};
      for i := 0 to |ids|
        invariant gone == (set k | k in old(events) && k.owner == o && k.id in ids[..i])
        invariant events == old(events) - gone && deleted == |gone| <= i
      {
        var k := EventKey(o, ids[i]);
        assert ids[..i + 1] == ids[..i] + [ids[i]];
        if k in events {
          events := events - {k};
          gone := gone + {k};
          deleted := deleted + 1;
        }
      }
      assert ids[..|ids|] == ids;
    }
  }
}
