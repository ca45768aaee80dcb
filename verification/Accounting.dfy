/** The relay's tables under storage caps: pushes, replacements, deletes, unpairs and sweeps, one transaction each. */
module Accounting {
  import opened Basics
  import opened Ledger
  import EventPages
  import MediaPaths

  type Id = EventPages.Id
  type Row = EventPages.Row
  type Blob = MediaPaths.Blob

  datatype EventKey = EventKey(owner: Owner, id: Id)

  /** Paired owners with their own cap if they have one, stored events, and the recorded size of each blob. */
  datatype Store = Store(owners: map<Owner, Option<int>>, events: map<EventKey, Row>, media: map<Blob, nat>)

  datatype Header = Header(createdAt: int, msgSeq: int, nonce: seq<byte>)

  /** Caps of zero or less mean unlimited. `parse` reads the cleartext header of an event payload. */
  datatype Config = Config(perOwner: int, disk: int, parse: seq<byte> -> Option<Header>)

  datatype Item = Item(id: Id, itemType: seq<byte>, payload: seq<byte>)

  datatype CapCheck = Fits | OwnerExceeded | HostExceeded

  datatype Outcome = Stored(accepted: nat, rejected: nat) | CapExceeded(which: CapCheck) | Failed

  const MAX_ID_LEN := 64
  const EVENT: seq<byte> := [101, 118, 101, 110, 116]

  // ---- usage ------------------------------------------------------------------------

  function EventOwner(k: EventKey): Owner { k.owner }

  function BlobOwner(b: Blob): Owner { b.owner }

  function EventSizes(events: map<EventKey, Row>): map<EventKey, nat> { map k | k in events :: |events[k].payload| }

  ghost function OwnerUsage(S: Store, o: Owner): nat {
    Total(Share(EventSizes(S.events), EventOwner, o)) + Total(Share(S.media, BlobOwner, o))
  }

  ghost function HostUsage(S: Store): nat { Total(EventSizes(S.events)) + Total(S.media) }

  function CapOf(c: Config, S: Store, o: Owner): int {
    if o in S.owners && S.owners[o].Some? then S.owners[o].value else c.perOwner
  }

  ghost function Check(c: Config, S: Store, o: Owner, incoming: nat): CapCheck {
    if CapOf(c, S, o) > 0 && OwnerUsage(S, o) + incoming > CapOf(c, S, o) then OwnerExceeded
    else if c.disk > 0 && HostUsage(S) + incoming > c.disk then HostExceeded
    else Fits
  }

  // ---- operations --------------------------------------------------------------------

  /** The row an item becomes, unless it is one the phone should not retry. */
  function RowOf(c: Config, item: Item, now: int): Option<Row> {
    if |item.id| > MAX_ID_LEN then None
    else if item.itemType == EVENT then
      var h := c.parse(item.payload);
      if h.None? then None
      else Some(EventPages.Row(h.value.createdAt, h.value.msgSeq, h.value.nonce, item.payload, item.itemType))
    else Some(EventPages.Row(now, 0, [], item.payload, item.itemType))
  }

  /** `INSERT OR IGNORE`: what is there already stays as it is. */
  function InsertItem(c: Config, events: map<EventKey, Row>, o: Owner, item: Item, now: int): map<EventKey, Row> {
    var row := RowOf(c, item, now);
    if row.None? || EventKey(o, item.id) in events then events else events[EventKey(o, item.id) := row.value]
  }

  function InsertAll(c: Config, events: map<EventKey, Row>, o: Owner, items: seq<Item>, now: int): map<EventKey, Row>
    decreases |items|
  {
    if items == [] then events else InsertAll(c, InsertItem(c, events, o, items[0], now), o, items[1..], now)
  }

  function Incoming(items: seq<Item>): nat { if items == [] then 0 else |items[0].payload| + Incoming(items[1..]) }

  function Rejected(c: Config, items: seq<Item>, now: int): (n: nat)
    ensures n <= |items|
  {
    if items == [] then 0 else (if RowOf(c, items[0], now).None? then 1 else 0) + Rejected(c, items[1..], now)
  }

  /**
   * Storing for somebody unpaired violates the foreign key: the transaction is rolled back, unless nothing was to be
   * stored.
   */
  ghost function PushEvents(c: Config, S: Store, o: Owner, items: seq<Item>, now: int): (Store, Outcome) {
    var check := Check(c, S, o, Incoming(items));
    var rejected := Rejected(c, items, now);
    if !check.Fits? then (S, CapExceeded(check))
    else if o !in S.owners && rejected < |items| then (S, Failed)
    else (S.(events := InsertAll(c, S.events, o, items, now)), Stored(|items| - rejected, rejected))
  }

  function Max0(n: int): nat { if n < 0 then 0 else n }

  /** `diskLen` is the length of the file at the blob's path, if there is one. */
  ghost function PushMedia(c: Config, S: Store, b: Blob, size: nat, diskLen: Option<nat>): (Store, Outcome) {
    if b in S.media && S.media[b] == size && diskLen == Some(size) then (S, Stored(1, 0))
    else
      var check := Check(c, S, b.owner, Max0(size - At(S.media, b)));
      if !check.Fits? then (S, CapExceeded(check))
      else if b.owner !in S.owners then (S, Failed)
      else (S.(media := S.media[b := size]), Stored(1, 0))
  }

  function DeleteEvents(S: Store, o: Owner, ids: seq<Id>): Store {
    S.(events := S.events - (set k | k in S.events && k.owner == o && k.id in ids))
  }

  function DropMedia(S: Store, gone: set<Blob>): Store { S.(media := S.media - gone) }

  function DeletedBlobs(S: Store, o: Owner, hashes: seq<string>): set<Blob> {
    set b | b in S.media && b.owner == o && b.hash in hashes
  }

  /** Rows of an unpaired owner go with the owner. */
  function Unpair(S: Store, o: Owner): Store {
    Store(S.owners - {o},
          (map k | k in S.events && k.owner != o :: S.events[k]),
          map b | b in S.media && b.owner != o :: S.media[b])
  }

  function Pair(S: Store, o: Owner, cap: Option<int>): Store {
    if o in S.owners then S else S.(owners := S.owners[o := cap])
  }

  datatype Op =
    | OpPushEvents(owner: Owner, items: seq<Item>, now: int)
    | OpPushMedia(blob: Blob, size: nat, diskLen: Option<nat>)
    | OpDeleteEvents(owner: Owner, ids: seq<Id>)
    | OpDeleteMedia(owner: Owner, hashes: seq<string>)
    | OpUnpair(owner: Owner)
    | OpPair(owner: Owner, cap: Option<int>)
    | OpSweep(phantoms: set<Blob>)

  ghost function Apply(c: Config, S: Store, op: Op): Store {
    match op
    case OpPushEvents(o, items, now) => PushEvents(c, S, o, items, now).0
    case OpPushMedia(b, size, diskLen) => PushMedia(c, S, b, size, diskLen).0
    case OpDeleteEvents(o, ids) => DeleteEvents(S, o, ids)
    case OpDeleteMedia(o, hashes) => DropMedia(S, DeletedBlobs(S, o, hashes))
    case OpUnpair(o) => Unpair(S, o)
    case OpPair(o, cap) => Pair(S, o, cap)
    case OpSweep(phantoms) => DropMedia(S, phantoms)
  }

  ghost function Run(c: Config, S: Store, ops: seq<Op>): Store
    decreases |ops|
  {
    if ops == [] then S else Run(c, Apply(c, S, ops[0]), ops[1..])
  }

  const EMPTY := Store(map[], map[], map[])

  // ---- the caps hold ------------------------------------------------------------------

  ghost predicate Owned(S: Store) {
    (forall k :: k in S.events ==> k.owner in S.owners) && (forall b :: b in S.media ==> b.owner in S.owners)
  }

  ghost predicate WithinCaps(c: Config, S: Store) {
    && (forall o :: o in S.owners && CapOf(c, S, o) > 0 ==> OwnerUsage(S, o) <= CapOf(c, S, o))
    && (c.disk > 0 ==> HostUsage(S) <= c.disk)
  }

  ghost predicate Inv(c: Config, S: Store) { Owned(S) && WithinCaps(c, S) }

  /** One stored payload adds at most its length to its owner and to the host, and nothing to anybody else. */
  lemma InsertCharges(c: Config, S: Store, o: Owner, item: Item, now: int, x: Owner)
    ensures var S' := S.(events := InsertItem(c, S.events, o, item, now));
            && HostUsage(S') <= HostUsage(S) + |item.payload|
            && OwnerUsage(S', x) <= OwnerUsage(S, x) + if x == o then |item.payload| else 0
  {
    var events' := InsertItem(c, S.events, o, item, now);
    if events' != S.events {
      var k := EventKey(o, item.id);
      var sizes := EventSizes(S.events);
      assert EventSizes(events') == sizes[k := |item.payload|];
      TotalSet(sizes, k, |item.payload|);
      ShareSet(sizes, EventOwner, k, |item.payload|, x);
      TotalSet(Share(sizes, EventOwner, x), k, |item.payload|);
    }
  }

  lemma {:induction false} InsertAllCharges(c: Config, S: Store, o: Owner, items: seq<Item>, now: int, x: Owner)
    ensures var S' := S.(events := InsertAll(c, S.events, o, items, now));
            && HostUsage(S') <= HostUsage(S) + Incoming(items)
            && OwnerUsage(S', x) <= OwnerUsage(S, x) + if x == o then Incoming(items) else 0
    decreases |items|
  {
    hide InsertItem, OwnerUsage, HostUsage;
    if items != [] {
      var S1 := S.(events := InsertItem(c, S.events, o, items[0], now));
      InsertCharges(c, S, o, items[0], now, x);
      InsertAllCharges(c, S1, o, items[1..], now, x);
      assert S1.(events := InsertAll(c, S1.events, o, items[1..], now))
             == S.(events := InsertAll(c, S.events, o, items, now));
    }
  }

  lemma {:induction false} InsertAllOwned(c: Config, events: map<EventKey, Row>, o: Owner, items: seq<Item>, now: int)
    ensures forall k :: k in InsertAll(c, events, o, items, now) && k !in events ==> k.owner == o
    ensures forall k :: k in events ==>
              k in InsertAll(c, events, o, items, now) && InsertAll(c, events, o, items, now)[k] == events[k]
    decreases |items|
  {
    if items != [] { InsertAllOwned(c, InsertItem(c, events, o, items[0], now), o, items[1..], now); }
  }

  /** A replacement adds at most what it is charged for. */
  lemma ReplaceCharges(S: Store, b: Blob, size: nat, x: Owner)
    ensures var S' := S.(media := S.media[b := size]); var incoming := Max0(size - At(S.media, b));
            && HostUsage(S') <= HostUsage(S) + incoming
            && OwnerUsage(S', x) <= OwnerUsage(S, x) + if x == b.owner then incoming else 0
  {
    TotalSet(S.media, b, size);
    ShareSet(S.media, BlobOwner, b, size, x);
    TotalSet(Share(S.media, BlobOwner, x), b, size);
  }

  /** Fewer rows, less usage. */
  lemma LessUsage(S: Store, S': Store, o: Owner)
    requires forall k :: k in S'.events ==> k in S.events && S'.events[k] == S.events[k]
    requires forall b :: b in S'.media ==> b in S.media && S'.media[b] == S.media[b]
    ensures OwnerUsage(S', o) <= OwnerUsage(S, o) && HostUsage(S') <= HostUsage(S)
  {
    TotalFewer(EventSizes(S.events), EventSizes(S'.events));
    TotalFewer(S.media, S'.media);
    TotalFewer(Share(EventSizes(S.events), EventOwner, o), Share(EventSizes(S'.events), EventOwner, o));
    TotalFewer(Share(S.media, BlobOwner, o), Share(S'.media, BlobOwner, o));
  }

  lemma PushEventsKeeps(c: Config, S: Store, o: Owner, items: seq<Item>, now: int)
    requires Inv(c, S)
    ensures Inv(c, PushEvents(c, S, o, items, now).0)
  {
    hide OwnerUsage, HostUsage, InsertAll, Rejected, Incoming;
    var S' := PushEvents(c, S, o, items, now).0;
    if S' != S {
      InsertAllOwned(c, S.events, o, items, now);
      if o !in S.owners { AllRejected(c, S.events, o, items, now); }
      forall x ensures HostUsage(S') <= HostUsage(S) + Incoming(items)
                       && OwnerUsage(S', x) <= OwnerUsage(S, x) + if x == o then Incoming(items) else 0 {
        InsertAllCharges(c, S, o, items, now, x);
      }
      assert HostUsage(S') <= HostUsage(S) + Incoming(items) by { InsertAllCharges(c, S, o, items, now, o); }
    }
  }

  lemma {:induction false} AllRejected(c: Config, events: map<EventKey, Row>, o: Owner, items: seq<Item>, now: int)
    requires Rejected(c, items, now) >= |items|
    ensures InsertAll(c, events, o, items, now) == events
    decreases |items|
  {
    if items != [] {
      AllRejected(c, events, o, items[1..], now);
    }
  }

  lemma PushMediaKeeps(c: Config, S: Store, b: Blob, size: nat, diskLen: Option<nat>)
    requires Inv(c, S)
    ensures Inv(c, PushMedia(c, S, b, size, diskLen).0)
  {
    hide OwnerUsage, HostUsage;
    var S' := PushMedia(c, S, b, size, diskLen).0;
    if S' != S {
      forall x ensures OwnerUsage(S', x) <= OwnerUsage(S, x) + if x == b.owner then Max0(size - At(S.media, b)) else 0 {
        ReplaceCharges(S, b, size, x);
      }
      ReplaceCharges(S, b, size, b.owner);
    }
  }

  lemma ShrinkKeeps(c: Config, S: Store, S': Store)
    requires Inv(c, S) && Owned(S') && forall o :: o in S'.owners ==> o in S.owners && S'.owners[o] == S.owners[o]
    requires forall k :: k in S'.events ==> k in S.events && S'.events[k] == S.events[k]
    requires forall b :: b in S'.media ==> b in S.media && S'.media[b] == S.media[b]
    ensures Inv(c, S')
  {
    hide OwnerUsage, HostUsage;
    forall o ensures OwnerUsage(S', o) <= OwnerUsage(S, o) { LessUsage(S, S', o); }
    LessUsage(S, S', []);
  }

  lemma PairKeeps(c: Config, S: Store, o: Owner, cap: Option<int>)
    requires Inv(c, S)
    ensures Inv(c, Pair(S, o, cap))
  {
    if o !in S.owners {
      NothingOwned(S, o);
      hide OwnerUsage, HostUsage;
      var S' := Pair(S, o, cap);
      assert HostUsage(S') == HostUsage(S) && forall x :: OwnerUsage(S', x) == OwnerUsage(S, x) by {
        SameTables(S, S');
      }
    }
  }

  lemma NothingOwned(S: Store, o: Owner)
    requires Owned(S) && o !in S.owners
    ensures OwnerUsage(S, o) == 0
  {
    assert Share(EventSizes(S.events), EventOwner, o) == map[];
    assert Share(S.media, BlobOwner, o) == map[];
  }

  lemma SameTables(S: Store, S': Store)
    requires S'.events == S.events && S'.media == S.media
    ensures HostUsage(S') == HostUsage(S) && forall x :: OwnerUsage(S', x) == OwnerUsage(S, x)
  {
  }

  lemma ApplyKeeps(c: Config, S: Store, op: Op)
    requires Inv(c, S)
    ensures Inv(c, Apply(c, S, op))
  {
    hide Inv, PushEvents, PushMedia;
    match op
    case OpPushEvents(o, items, now) => PushEventsKeeps(c, S, o, items, now);
    case OpPushMedia(b, size, diskLen) => PushMediaKeeps(c, S, b, size, diskLen);
    case OpDeleteEvents(o, ids) => OwnedStays(c, S); ShrinkKeeps(c, S, DeleteEvents(S, o, ids));
    case OpDeleteMedia(o, hashes) => OwnedStays(c, S); ShrinkKeeps(c, S, DropMedia(S, DeletedBlobs(S, o, hashes)));
    case OpUnpair(o) => OwnedStays(c, S); ShrinkKeeps(c, S, Unpair(S, o));
    case OpPair(o, cap) => PairKeeps(c, S, o, cap);
    case OpSweep(phantoms) => OwnedStays(c, S); ShrinkKeeps(c, S, DropMedia(S, phantoms));
  }

  lemma OwnedStays(c: Config, S: Store)
    requires Inv(c, S)
    ensures Owned(S)
  {
  }

  lemma {:induction false} RunKeeps(c: Config, S: Store, ops: seq<Op>)
    requires Inv(c, S)
    ensures Inv(c, Run(c, S, ops))
    decreases |ops|
  {
    hide Inv, Apply;
    if ops != [] {
      ApplyKeeps(c, S, ops[0]);
      RunKeeps(c, Apply(c, S, ops[0]), ops[1..]);
    }
  }

  lemma EmptyStore(c: Config)
    ensures Inv(c, EMPTY)
  {
    assert EventSizes(EMPTY.events) == map[];
  }

  /**
   * Caps hold over every run from an empty store: each owner stays within their positive cap, the host within its own,
   * and the host's usage is the sum of its owners'.
   */
  lemma CapsHold(c: Config, ops: seq<Op>, os: seq<Owner>)
    requires Enumerates(os, Run(c, EMPTY, ops).owners.Keys)
    ensures var S := Run(c, EMPTY, ops);
            && (forall o :: o in S.owners && CapOf(c, S, o) > 0 ==> OwnerUsage(S, o) <= CapOf(c, S, o))
            && (c.disk > 0 ==> HostUsage(S) <= c.disk)
            && HostUsage(S) == SumUsage(S, os)
  {
    EmptyStore(c);
    RunKeeps(c, EMPTY, ops);
    HostIsSum(Run(c, EMPTY, ops), os);
  }

  ghost function SumUsage(S: Store, os: seq<Owner>): nat
    decreases |os|
  {
    if os == [] then 0 else OwnerUsage(S, os[0]) + SumUsage(S, os[1..])
  }

  lemma {:induction false} SumUsageSplits(S: Store, os: seq<Owner>)
    ensures SumUsage(S, os) == SumShares(EventSizes(S.events), EventOwner, os) + SumShares(S.media, BlobOwner, os)
    decreases |os|
  {
    if os != [] { SumUsageSplits(S, os[1..]); }
  }

  lemma HostIsSum(S: Store, os: seq<Owner>)
    requires Owned(S) && Enumerates(os, S.owners.Keys)
    ensures HostUsage(S) == SumUsage(S, os)
  {
    SumUsageSplits(S, os);
    SharesMakeTotal(EventSizes(S.events), EventOwner, os);
    SharesMakeTotal(S.media, BlobOwner, os);
  }

  // ---- what a push answers and stores ------------------------------------------------------------

  /** The phone should not retry anything else: ids of at most 64 bytes, and events with a header that can be read. */
  predicate Acceptable(c: Config, item: Item) {
    |item.id| <= 64 && (item.itemType == EVENT ==> c.parse(item.payload).Some?)
  }

  function CountAcceptable(c: Config, items: seq<Item>): (n: nat)
    ensures n <= |items|
  {
    if items == [] then 0 else CountAcceptable(c, items[1..]) + if Acceptable(c, items[0]) then 1 else 0
  }

  function Payloads(items: seq<Item>): seq<byte> { if items == [] then [] else items[0].payload + Payloads(items[1..]) }

  lemma {:induction false} CountsAgree(c: Config, items: seq<Item>, now: int)
    ensures Rejected(c, items, now) + CountAcceptable(c, items) == |items|
    ensures Incoming(items) == |Payloads(items)|
  {
    if items != [] { CountsAgree(c, items[1..], now); }
  }

  /** A limit of zero or less is none. */
  predicate Over(limit: int, usage: nat, more: nat) { limit > 0 && usage + more > limit }

  /** The limit that applies to an owner: their own if they have one, the relay's default otherwise. */
  function OwnLimit(c: Config, S: Store, o: Owner): int {
    match if o in S.owners then S.owners[o] else None
    case Some(own) => own
    case None => c.perOwner
  }

  /**
   * What a push of events answers, in every case: the owner's limit comes before the host's, and both are asked for
   * room for all payloads; somebody unpaired can store nothing; otherwise each item is accepted or rejected.
   */
  lemma PushAnswers(c: Config, S: Store, o: Owner, items: seq<Item>, now: int)
    ensures PushEvents(c, S, o, items, now).1 ==
            if Over(OwnLimit(c, S, o), OwnerUsage(S, o), |Payloads(items)|) then CapExceeded(OwnerExceeded)
            else if Over(c.disk, HostUsage(S), |Payloads(items)|) then CapExceeded(HostExceeded)
            else if o !in S.owners && CountAcceptable(c, items) > 0 then Failed
            else Stored(CountAcceptable(c, items), |items| - CountAcceptable(c, items))
  {
    hide OwnerUsage, HostUsage, Rejected, Incoming, Payloads, CountAcceptable;
    CountsAgree(c, items, now);
  }

  /** The same for a blob: it is charged for what it adds to the recorded size; an intact repeat costs nothing. */
  lemma PushBlobAnswers(c: Config, S: Store, b: Blob, size: nat, diskLen: Option<nat>)
    ensures var r := PushMedia(c, S, b, size, diskLen);
            var recorded := if b in S.media then S.media[b] else 0;
            var growth := if size > recorded then size - recorded else 0;
            && r.1 == (if b in S.media && recorded == size && diskLen == Some(size) then Stored(1, 0)
                       else if Over(OwnLimit(c, S, b.owner), OwnerUsage(S, b.owner), growth) then
                         CapExceeded(OwnerExceeded)
                       else if Over(c.disk, HostUsage(S), growth) then CapExceeded(HostExceeded)
                       else if b.owner !in S.owners then Failed
                       else Stored(1, 0))
            && r.0 == (if r.1.Stored? then S.(media := S.media[b := size]) else S)
  {
    hide OwnerUsage, HostUsage;
    if b in S.media { assert S.media[b := S.media[b]] == S.media; }
  }

  /** The item that becomes the row of an id: the first one with that id that is acceptable. */
  function FirstFor(c: Config, items: seq<Item>, id: Id): Option<Item> {
    if items == [] then None
    else if items[0].id == id && Acceptable(c, items[0]) then Some(items[0])
    else FirstFor(c, items[1..], id)
  }

  /**
   * The row an item is stored as: payload and type as they came; time, sequence number and nonce from the header of an
   * event, and the time of the push for anything else.
   */
  predicate Records(c: Config, item: Item, now: int, row: Row) {
    && row.payload == item.payload && row.itemType == item.itemType
    && (item.itemType == EVENT ==>
          var h := c.parse(item.payload);
          h.Some? && row.at == h.value.createdAt && row.msgSeq == h.value.msgSeq && row.nonce == h.value.nonce)
    && (item.itemType != EVENT ==> row.at == now && row.msgSeq == 0 && row.nonce == [])
  }

  lemma {:induction false} InsertAllRecords(c: Config, events: map<EventKey, Row>, o: Owner, items: seq<Item>, now: int,
                                            id: Id)
    ensures var k, r := EventKey(o, id), InsertAll(c, events, o, items, now);
            if k in events then k in r && r[k] == events[k]
            else (k in r <==> FirstFor(c, items, id).Some?)
                 && (k in r ==> Records(c, FirstFor(c, items, id).value, now, r[k]))
    decreases |items|
  {
    if items != [] {
      var events' := InsertItem(c, events, o, items[0], now);
      InsertAllRecords(c, events', o, items[1..], now, id);
    }
  }

  /**
   * What a stored batch leaves under each id: the row that was there, or else that of the first acceptable item with
   * that id, or nothing; and everything of everybody else as it was.
   */
  lemma PushStores(c: Config, S: Store, o: Owner, items: seq<Item>, now: int, id: Id)
    requires PushEvents(c, S, o, items, now).1.Stored?
    ensures var k, r := EventKey(o, id), PushEvents(c, S, o, items, now).0.events;
            if k in S.events then k in r && r[k] == S.events[k]
            else (k in r <==> FirstFor(c, items, id).Some?)
                 && (k in r ==> Records(c, FirstFor(c, items, id).value, now, r[k]))
    ensures var S' := PushEvents(c, S, o, items, now).0;
            && S'.owners == S.owners && S'.media == S.media
            && forall k: EventKey :: k.owner != o ==>
                 (k in S'.events <==> k in S.events) && (k in S.events ==> S'.events[k] == S.events[k])
  {
    hide OwnerUsage, HostUsage, InsertAll, Records;
    InsertAllRecords(c, S.events, o, items, now, id);
    InsertAllOwned(c, S.events, o, items, now);
  }

  // ---- pushing again -----------------------------------------------------------------------

  lemma {:induction false} InsertedAlready(c: Config, events: map<EventKey, Row>, o: Owner, items: seq<Item>, now: int)
    requires forall i :: 0 <= i < |items| ==> RowOf(c, items[i], now).None? || EventKey(o, items[i].id) in events
    ensures InsertAll(c, events, o, items, now) == events
    decreases |items|
  {
    if items != [] {
      assert InsertItem(c, events, o, items[0], now) == events;
      InsertedAlready(c, events, o, items[1..], now);
    }
  }

  lemma {:induction false} InsertAllStores(c: Config, events: map<EventKey, Row>, o: Owner, items: seq<Item>, now: int,
                                           i: nat)
    requires i < |items| && RowOf(c, items[i], now).Some?
    ensures EventKey(o, items[i].id) in InsertAll(c, events, o, items, now)
    decreases |items|
  {
    var events' := InsertItem(c, events, o, items[0], now);
    if i == 0 {
      InsertAllOwned(c, events', o, items[1..], now);
    } else {
      InsertAllStores(c, events', o, items[1..], now, i - 1);
    }
  }

  /** A phone that repeats its batch, at whatever time, leaves the store as the first push left it. */
  lemma PushTwice(c: Config, S: Store, o: Owner, items: seq<Item>, now: int, later: int)
    ensures var S1 := PushEvents(c, S, o, items, now).0; PushEvents(c, S1, o, items, later).0 == S1
  {
    var r := PushEvents(c, S, o, items, now);
    SameRejections(c, items, now, later);
    if r.1.Stored? {
      forall i | 0 <= i < |items| ensures RowOf(c, items[i], later).None? || EventKey(o, items[i].id) in r.0.events {
        if RowOf(c, items[i], later).Some? { InsertAllStores(c, S.events, o, items, now, i); }
      }
      InsertedAlready(c, r.0.events, o, items, later);
    }
  }

  lemma {:induction false} SameRejections(c: Config, items: seq<Item>, now: int, later: int)
    ensures Rejected(c, items, now) == Rejected(c, items, later)
  {
    if items != [] { SameRejections(c, items[1..], now, later); }
  }

  /**
   * The repeat is asked for room all over again, though it would add nothing: it is stored again exactly when that room
   * is there.
   */
  lemma RepushExactly(c: Config, S: Store, o: Owner, items: seq<Item>, now: int, later: int)
    requires PushEvents(c, S, o, items, now).1.Stored?
    ensures var S1 := PushEvents(c, S, o, items, now).0;
            PushEvents(c, S1, o, items, later).1.Stored? <==>
              && (CapOf(c, S, o) <= 0 || OwnerUsage(S1, o) + Incoming(items) <= CapOf(c, S, o))
              && (c.disk <= 0 || HostUsage(S1) + Incoming(items) <= c.disk)
  {
    hide OwnerUsage, HostUsage, InsertAll, Incoming;
    SameRejections(c, items, now, later);
  }

  /** One byte of room, one byte stored: the same push again is refused, whoever pushes it under whatever id. */
  lemma RepushRefused(o: Owner, id: Id)
    requires |id| <= MAX_ID_LEN
    ensures var c := Config(1, 0, x => None);
            var S := Store(map[o := None], map[], map[]);
            var items := [Item(id, [], [0])];
            var first := PushEvents(c, S, o, items, 0);
            first.1 == Stored(1, 0) && PushEvents(c, first.0, o, items, 0).1 == CapExceeded(OwnerExceeded)
  {
    var c := Config(1, 0, x => None);
    var S := Store(map[o := None], map[], map[]);
    var item := Item(id, [], [0]);
    var k := EventKey(o, id);
    assert [item][1..] == [] && Incoming([item]) == 1 && Rejected(c, [item], 0) == 0;
    assert Share(EventSizes(S.events), EventOwner, o) == map[] && Share(S.media, BlobOwner, o) == map[];
    assert |EVENT| == 5 && RowOf(c, item, 0) == Some(EventPages.Row(0, 0, [], [0], []));
    var events' := InsertItem(c, S.events, o, item, 0);
    assert InsertAll(c, S.events, o, [item], 0) == InsertAll(c, events', o, [], 0) == events';
    assert events' == map[k := EventPages.Row(0, 0, [], [0], [])];
    var sizes: map<EventKey, nat> := map[];
    assert Share(EventSizes(events'), EventOwner, o) == sizes[k := 1];
    TotalSet(sizes, k, 1);
  }
}
