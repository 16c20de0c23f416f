/** The request handlers over an in-memory shipment store: paginated list,
    create, get, partial update, delete and the liveness check. Records are
    kept by primary key in a map; the clock that stamps them is a logical
    counter. */
module Api {
  import opened Models

  /** What a handler answers. Ok stands for 200, 201 or 204 depending on the
      operation; NotFound for 404; Conflict for a write the unique
      tracking-number column refuses; Unprocessable for a request body that
      fails validation (422). */
  datatype Outcome<+T> = Ok(value: T) | NotFound | Conflict | Unprocessable

  /** Stored records by primary key. */
  type Table = map<int, Shipment>

  const DefaultLimit := 10
  const DefaultOffset := 0
  const MaxPageSize := 100

  function Min(a: int, b: int): int { if a <= b then a else b }
  function Max(a: int, b: int): int { if a >= b then a else b }

  // ---------------------------------------------------------------------
  // Paging parameters
  // ---------------------------------------------------------------------

  /** The page size actually used: out-of-range values are pulled into
      [1, 100] rather than rejected. */
  function ClampLimit(limit: int): (r: int)
    ensures 1 <= r <= MaxPageSize
    ensures 1 <= limit <= MaxPageSize ==> r == limit
    ensures limit < 1 ==> r == 1
    ensures limit > MaxPageSize ==> r == MaxPageSize
  {
    Max(1, Min(limit, MaxPageSize))
  }

  /** The offset actually used: a negative offset counts as 0. */
  function ClampOffset(offset: int): (r: int)
    ensures r >= 0
    ensures offset >= 0 ==> r == offset
    ensures offset < 0 ==> r == 0
  {
    Max(0, offset)
  }

  // ---------------------------------------------------------------------
  // Ordering by primary key, highest first
  // ---------------------------------------------------------------------

  lemma {:induction false} HasMaximum(s: set<int>)
    requires s != {}
    ensures exists m :: m in s && forall y :: y in s ==> y <= m
    decreases s
  {
    assert (forall y :: y !in s) ==> s == {};
    var x :| x in s;
    if s == {x} {
      assert forall y :: y in s ==> y <= x;
    } else {
      var rest := s - {x};
      assert rest != {} by { assert (forall y :: y in s ==> y == x) ==> s == {x}; }
      HasMaximum(rest);
      var m :| m in rest && forall y :: y in rest ==> y <= m;
      var top := if x > m then x else m;
      assert forall y :: y in s ==> y <= top by {
        forall y | y in s ensures y <= top {
          if y != x { assert y in rest; }
        }
      }
    }
  }

  function MaxOf(s: set<int>): (m: int)
    requires s != {}
    ensures m in s && forall y :: y in s ==> y <= m
  {
    HasMaximum(s);
    var m :| m in s && forall y :: y in s ==> y <= m; m
  }

  predicate StrictlyDescending(s: seq<int>) {
    forall i, j :: 0 <= i < j < |s| ==> s[i] > s[j]
  }

  /** The keys of a set, highest first: every key of the set and nothing
      else. */
  function IdsDescending(ids: set<int>): (r: seq<int>)
    ensures |r| == |ids|
    ensures forall i :: 0 <= i < |r| ==> r[i] in ids
    ensures forall k :: k in ids ==> k in r
    decreases ids
  {
    if ids == {} then []
    else
      var m := MaxOf(ids);
      [m] + IdsDescending(ids - {m})
  }

  /** Putting a key above every key of a descending run in front keeps it
      descending. */
  lemma PrependDescending(m: int, rest: seq<int>)
    requires StrictlyDescending(rest)
    requires forall i :: 0 <= i < |rest| ==> rest[i] < m
    ensures StrictlyDescending([m] + rest)
  {
    var r := [m] + rest;
    forall i, j | 0 <= i < j < |r| ensures r[i] > r[j] {
      assert r[j] == rest[j - 1];
      if i > 0 {
        assert r[i] == rest[i - 1];
      }
    }
  }

  /** The descending key order is strictly descending, so it holds each key
      exactly once. */
  lemma {:induction false} IdsDescendingSorted(ids: set<int>)
    ensures StrictlyDescending(IdsDescending(ids))
    decreases ids
  {
    if ids != {} {
      var m := MaxOf(ids);
      var rest := IdsDescending(ids - {m});
      IdsDescendingSorted(ids - {m});
      assert forall i :: 0 <= i < |rest| ==> rest[i] in ids - {m};
      PrependDescending(m, rest);
      assert IdsDescending(ids) == [m] + rest;
    }
  }

  /** The records stored under a list of keys, in that order. */
  function Records(db: Table, ids: seq<int>): (r: seq<Shipment>)
    requires forall i :: 0 <= i < |ids| ==> ids[i] in db
    ensures |r| == |ids|
    ensures forall i :: 0 <= i < |ids| ==> r[i] == db[ids[i]]
  {
    seq(|ids|, i requires 0 <= i < |ids| => db[ids[i]])
  }

  /** Every record is stored under its own primary key. */
  ghost predicate KeyedById(db: Table) {
    forall k :: k in db ==> db[k].id == k
  }

  // ---------------------------------------------------------------------
  // List
  // ---------------------------------------------------------------------

  /** The part of a list that a page covers: skip `offset` entries, take at
      most `limit`. */
  function Window<T>(s: seq<T>, limit: nat, offset: nat): (w: seq<T>)
    ensures |w| == Max(0, Min(limit, |s| - offset))
    ensures forall i :: 0 <= i < |w| ==> offset + i < |s| && w[i] == s[offset + i]
  {
    if offset >= |s| then [] else s[offset .. offset + Min(limit, |s| - offset)]
  }

  /** The keys of one page, highest first: after clamping, skip `offset`
      keys of the descending order and take at most `limit`. */
  function PageIds(db: Table, limit: int, offset: int): (ids: seq<int>)
    ensures |ids| == Max(0, Min(ClampLimit(limit), |db| - ClampOffset(offset)))
    ensures forall i :: 0 <= i < |ids| ==>
      ClampOffset(offset) + i < |db| && ids[i] == IdsDescending(db.Keys)[ClampOffset(offset) + i] && ids[i] in db
  {
    assert |db.Keys| == |db|;
    Window(IdsDescending(db.Keys), ClampLimit(limit), ClampOffset(offset))
  }

  /** One page of the store: after clamping, skip `offset` records of the
      highest-id-first order and take at most `limit`. The total is the number
      of stored records, whatever page was asked for. */
  function ListShipments(db: Table, limit: int, offset: int): (r: ShipmentList)
    ensures r.total == |db|
    ensures |r.items| == Max(0, Min(ClampLimit(limit), |db| - ClampOffset(offset)))
    ensures forall i :: 0 <= i < |r.items| ==>
      ClampOffset(offset) + i < |db| && r.items[i] == db[IdsDescending(db.Keys)[ClampOffset(offset) + i]]
  {
    ShipmentList(|db|, Records(db, PageIds(db, limit, offset)))
  }

  /** GET /shipments with no query parameters: the ten highest keys' records,
      or every record when fewer are stored. */
  function ListDefault(db: Table): (r: ShipmentList)
    ensures r.total == |db|
    ensures |r.items| == Min(DefaultLimit, |db|)
    ensures forall i :: 0 <= i < |r.items| ==> i < |db| && r.items[i] == db[IdsDescending(db.Keys)[i]]
  {
    ListShipments(db, DefaultLimit, DefaultOffset)
  }

  /** A window of a strictly descending run is strictly descending. */
  lemma WindowDescending(s: seq<int>, limit: nat, offset: nat)
    requires StrictlyDescending(s)
    ensures StrictlyDescending(Window(s, limit, offset))
  {
    var w := Window(s, limit, offset);
    forall i, j | 0 <= i < j < |w| ensures w[i] > w[j] {
      assert w[i] == s[offset + i] && w[j] == s[offset + j];
    }
  }

  /** On a store where every record sits under its own id, the records under
      a strictly descending run of keys are stored records whose ids descend
      strictly. */
  lemma RecordsDescending(db: Table, s: seq<int>)
    requires KeyedById(db)
    requires forall i :: 0 <= i < |s| ==> s[i] in db
    requires StrictlyDescending(s)
    ensures forall i :: 0 <= i < |Records(db, s)| ==>
      Records(db, s)[i].id in db && db[Records(db, s)[i].id] == Records(db, s)[i]
    ensures forall i, j :: 0 <= i < j < |Records(db, s)| ==> Records(db, s)[i].id > Records(db, s)[j].id
  {
    var r := Records(db, s);
    assert forall i :: 0 <= i < |r| ==> r[i].id == s[i];
  }

  /** The records under a run of keys that holds every stored key are all the
      stored records, and nothing else. */
  lemma RecordsCover(db: Table, s: seq<int>)
    requires forall i :: 0 <= i < |s| ==> s[i] in db
    requires forall k :: k in db ==> k in s
    ensures forall k :: k in db ==> db[k] in Records(db, s)
    ensures forall i :: 0 <= i < |Records(db, s)| ==> Records(db, s)[i] in db.Values
  {
    var r := Records(db, s);
    forall i | 0 <= i < |r| ensures r[i] in db.Values {
      assert r[i] == db[s[i]];
    }
    forall k | k in db ensures db[k] in r {
      var i :| 0 <= i < |s| && s[i] == k;
      assert r[i] == db[k];
    }
  }

  /** On a store where every record sits under its own id, a page holds stored
      records only, in strictly descending id order. */
  lemma ListOrdered(db: Table, limit: int, offset: int)
    requires KeyedById(db)
    ensures forall i :: 0 <= i < |ListShipments(db, limit, offset).items| ==>
      ListShipments(db, limit, offset).items[i].id in db &&
      db[ListShipments(db, limit, offset).items[i].id] == ListShipments(db, limit, offset).items[i]
    ensures forall i, j :: 0 <= i < j < |ListShipments(db, limit, offset).items| ==>
      ListShipments(db, limit, offset).items[i].id > ListShipments(db, limit, offset).items[j].id
  {
    IdsDescendingSorted(db.Keys);
    WindowDescending(IdsDescending(db.Keys), ClampLimit(limit), ClampOffset(offset));
    RecordsDescending(db, PageIds(db, limit, offset));
  }

  /** Every page, from `offset` on, stepping by the clamped page size. */
  function AllPages(db: Table, limit: int, offset: nat): seq<Shipment>
    decreases |db| - offset
  {
    if offset >= |db| then []
    else ListShipments(db, limit, offset).items + AllPages(db, limit, offset + ClampLimit(limit))
  }

  /** Every stored record, highest key first: the listing that pages are
      cut from. */
  function Listing(db: Table): (r: seq<Shipment>)
    ensures |r| == |db|
    ensures forall i :: 0 <= i < |r| ==> i < |IdsDescending(db.Keys)| && r[i] == db[IdsDescending(db.Keys)[i]]
  {
    assert |db.Keys| == |db|;
    Records(db, IdsDescending(db.Keys))
  }

  /** The page at an offset inside the store is the slice of the listing
      that starts there, as long as the page size allows. */
  lemma PageAt(db: Table, limit: int, offset: nat)
    requires offset < |db|
    ensures ListShipments(db, limit, offset).items == Listing(db)[offset..Min(offset + ClampLimit(limit), |db|)]
  {
    var items := ListShipments(db, limit, offset).items;
    var slice := Listing(db)[offset..Min(offset + ClampLimit(limit), |db|)];
    assert |items| == |slice|;
    forall i | 0 <= i < |items| ensures items[i] == slice[i] {
      assert slice[i] == Listing(db)[offset + i];
    }
  }

  /** One step of the page walk: the page at `offset`, then the walk from
      the next offset. */
  lemma AllPagesStep(db: Table, limit: int, offset: nat)
    requires offset < |db|
    ensures AllPages(db, limit, offset)
      == Listing(db)[offset..Min(offset + ClampLimit(limit), |db|)] + AllPages(db, limit, offset + ClampLimit(limit))
  {
    PageAt(db, limit, offset);
  }

  /** At position `o`, a walk over `s` in steps of `n` yields the next `n`
      entries and then the walk `n` further on; past the end it yields
      nothing. */
  ghost predicate StepAt<T>(s: seq<T>, n: nat, walk: nat -> seq<T>, o: nat) {
    if o < |s| then walk(o) == s[o..Min(o + n, |s|)] + walk(o + n) else walk(o) == []
  }

  /** A walk that steps through a list `n` entries at a time yields the whole
      rest of the list. */
  lemma {:induction false} WalkCovers<T>(s: seq<T>, n: nat, walk: nat -> seq<T>, offset: nat)
    requires n >= 1 && offset <= |s|
    requires forall o: nat :: StepAt(s, n, walk, o)
    ensures walk(offset) == s[offset..]
    decreases |s| - offset
  {
    assert StepAt(s, n, walk, offset);
    if offset < |s| {
      var stop := Min(offset + n, |s|);
      if offset + n < |s| {
        WalkCovers(s, n, walk, offset + n);
      } else {
        assert StepAt(s, n, walk, offset + n);
        assert s[stop..] == [];
      }
      assert s[offset..] == s[offset..stop] + s[stop..];
    } else {
      assert s[offset..] == [];
    }
  }

  /** The page walk as a function of the starting offset. */
  function PageWalk(db: Table, limit: int): nat -> seq<Shipment> {
    (o: nat) => AllPages(db, limit, o)
  }

  /** The page walk takes one step of the clamped page size at every offset. */
  lemma PageWalkStep(db: Table, limit: int, o: nat)
    ensures StepAt(Listing(db), ClampLimit(limit), PageWalk(db, limit), o)
  {
    var walk := PageWalk(db, limit);
    assert walk(o) == AllPages(db, limit, o);
    if o < |db| {
      var next := o + ClampLimit(limit);
      assert walk(next) == AllPages(db, limit, next);
      AllPagesStep(db, limit, o);
    }
  }

  /** Walking the pages from an offset, stepping by the clamped page size,
      yields the listing from that offset on. */
  lemma AllPagesFrom(db: Table, limit: int, offset: nat)
    requires offset <= |db|
    ensures AllPages(db, limit, offset) == Listing(db)[offset..]
  {
    forall o: nat ensures StepAt(Listing(db), ClampLimit(limit), PageWalk(db, limit), o) {
      PageWalkStep(db, limit, o);
    }
    WalkCovers(Listing(db), ClampLimit(limit), PageWalk(db, limit), offset);
  }

  /** Reading every page of a fixed size from offset 0 on yields each stored
      record exactly once, highest id first. */
  lemma PagesCoverStore(db: Table, limit: int)
    requires KeyedById(db)
    ensures |AllPages(db, limit, 0)| == |db|
    ensures forall k :: k in db ==> db[k] in AllPages(db, limit, 0)
    ensures forall i :: 0 <= i < |AllPages(db, limit, 0)| ==> AllPages(db, limit, 0)[i] in db.Values
    ensures forall i, j :: 0 <= i < j < |AllPages(db, limit, 0)| ==>
      AllPages(db, limit, 0)[i].id > AllPages(db, limit, 0)[j].id
  {
    var ids := IdsDescending(db.Keys);
    IdsDescendingSorted(db.Keys);
    AllPagesFrom(db, limit, 0);
    assert Listing(db)[0..] == Listing(db) == Records(db, ids);
    RecordsDescending(db, ids);
    RecordsCover(db, ids);
  }

  // ---------------------------------------------------------------------
  // Get
  // ---------------------------------------------------------------------

  /** Lookup by primary key; reading never changes the store. */
  function GetShipment(db: Table, id: int): (r: Outcome<Shipment>)
    ensures r.Ok? || r == NotFound
    ensures r.Ok? <==> id in db
    ensures r.Ok? ==> r.value == db[id]
  {
    if id in db then Ok(db[id]) else NotFound
  }

  // ---------------------------------------------------------------------
  // Health check
  // ---------------------------------------------------------------------

  /** The liveness answer: a single "status" key whose value is "ok". */
  function Healthcheck(): (r: map<string, string>)
    ensures r.Keys == {"status"} && r["status"] == "ok"
  {
    map["status" := "ok"]
  }

  // ---------------------------------------------------------------------
  // Store invariant
  // ---------------------------------------------------------------------

  /** A tracking number held by some stored record. */
  predicate TrackingInUse(db: Table, t: string) {
    exists k :: k in db && db[k].base.trackingNumber == t
  }

  /** No two stored records share a tracking number. */
  ghost predicate UniqueTracking(db: Table) {
    forall a, b :: a in db && b in db && db[a].base.trackingNumber == db[b].base.trackingNumber ==> a == b
  }

  /** What holds of every stored record at clock value `now`. */
  ghost predicate ValidRecord(k: int, s: Shipment, now: Timestamp) {
    && s.id == k
    && k > 0
    && ValidBase(s.base)
    && s.createdAt <= s.updatedAt <= now
  }

  ghost predicate StoreInvariant(db: Table, now: Timestamp) {
    && (forall k :: k in db ==> ValidRecord(k, db[k], now))
    && UniqueTracking(db)
  }

  /** The key a new record receives: one past the highest stored key. */
  function NextId(db: Table): (r: int)
    ensures r > 0
    ensures forall k :: k in db ==> k < r
  {
    if db.Keys == {} then 1 else Max(1, MaxOf(db.Keys) + 1)
  }

  /** A freshly keyed record with a tracking number no stored record holds
      keeps the invariant. */
  lemma InsertKeepsInvariant(db: Table, now: Timestamp, s: Shipment)
    requires StoreInvariant(db, now)
    requires s.id !in db && ValidRecord(s.id, s, now)
    requires !TrackingInUse(db, s.base.trackingNumber)
    ensures StoreInvariant(db[s.id := s], now)
  {
    assert forall k :: k in db ==> db[k].base.trackingNumber != s.base.trackingNumber;
  }

  /** Replacing a record by one whose tracking number no other record holds
      keeps the invariant. */
  lemma ReplaceKeepsInvariant(db: Table, now: Timestamp, s: Shipment)
    requires StoreInvariant(db, now)
    requires s.id in db && ValidRecord(s.id, s, now)
    requires !TrackingInUse(db - {s.id}, s.base.trackingNumber)
    ensures StoreInvariant(db[s.id := s], now)
  {
    var others := db - {s.id};
    assert forall k :: k in db && k != s.id ==> k in others;
    assert forall k :: k in db && k != s.id ==> db[k].base.trackingNumber != s.base.trackingNumber;
  }

  // ---------------------------------------------------------------------
  // Applying an update one attribute at a time
  // ---------------------------------------------------------------------

  lemma NonEmptyHasMember<T>(s: set<T>)
    requires s != {}
    ensures exists x :: x in s
  {
    assert (forall x :: x !in s) ==> s == {};
  }

  /** `r` holds the values of `d` on the fields in `done`, and the values of
      `b` on every other field. */
  ghost predicate Overlaid(r: ShipmentBase, b: ShipmentBase, d: map<FieldName, Value>, done: set<FieldName>)
    requires done <= d.Keys
  {
    forall f :: GetAttr(r, f) == (if f in done then d[f] else GetAttr(b, f))
  }

  /** Writing one more supplied field extends the overlay by that field. */
  lemma OverlayStep(r: ShipmentBase, b: ShipmentBase, d: map<FieldName, Value>, done: set<FieldName>, key: FieldName)
    requires done <= d.Keys && key in d
    requires forall f :: f in d ==> HasTypeOf(f, d[f])
    requires Overlaid(r, b, d, done)
    ensures Overlaid(SetAttr(r, key, d[key]), b, d, done + {key})
  {
  }

  /** Writes the supplied fields onto a record one attribute at a time, in
      whatever order the supplied fields are visited. The result is the
      field-wise merge. */
  method ApplyUpdate(b: ShipmentBase, u: ShipmentUpdate) returns (r: ShipmentBase)
    ensures r == Merge(b, u)
  {
    var supplied := Supplied(u);
    var pending := supplied.Keys;
    r := b;
    while pending != {}
      invariant pending <= supplied.Keys
      invariant Overlaid(r, b, supplied, supplied.Keys - pending)
      decreases pending
    {
      NonEmptyHasMember(pending);
      var key :| key in pending;
      OverlayStep(r, b, supplied, supplied.Keys - pending, key);
      r := SetAttr(r, key, supplied[key]);
      pending := pending - {key};
      assert supplied.Keys - pending == (supplied.Keys - (pending + {key})) + {key};
    }
    forall f ensures GetAttr(r, f) == GetAttr(Merge(b, u), f) {
      MergeByName(b, u, f);
    }
    FieldsDetermineRecord(r, Merge(b, u));
  }

  /** A record keyed above every stored key heads the first page: the list
      is newest first. */
  lemma NewestFirst(db: Table, s: Shipment, limit: int)
    requires forall k :: k in db ==> k < s.id
    ensures |ListShipments(db[s.id := s], limit, 0).items| >= 1
    ensures ListShipments(db[s.id := s], limit, 0).items[0] == s
  {
    var db' := db[s.id := s];
    var m := MaxOf(db'.Keys);
    assert s.id in db'.Keys;
    assert m == s.id;
    assert IdsDescending(db'.Keys)[0] == s.id;
  }

  // ---------------------------------------------------------------------
  // The store: create, update and delete change it in place
  // ---------------------------------------------------------------------

  /** The shipment table together with the clock that stamps writes. */
  class Store {
    var rows: Table
    var now: Timestamp

    ghost predicate Valid()
      reads this
    {
      StoreInvariant(rows, now)
    }

    /** An empty table whose clock reads `start`. */
    constructor(start: Timestamp)
      ensures Valid()
      ensures rows == map[] && now == start
    {
      rows := map[];
      now := start;
    }

    /** Time passes; nothing stored changes. */
    method AdvanceClock(dt: nat)
      requires Valid()
      modifies this
      ensures Valid()
      ensures rows == old(rows) && now == old(now) + dt
    {
      now := now + dt;
    }

    /** POST /shipments: validate the payload, fill the defaults, stamp both
        timestamps with the current time and store the record under a fresh
        key. A tracking number already in use is refused. */
    method Create(req: CreateRequest) returns (r: Outcome<Shipment>)
      requires Valid()
      modifies this
      ensures Valid() && now == old(now)
      ensures ParseCreate(req).None? ==> r == Unprocessable && rows == old(rows)
      ensures ParseCreate(req).Some? && TrackingInUse(old(rows), req.trackingNumber) ==>
        r == Conflict && rows == old(rows)
      ensures ParseCreate(req).Some? && !TrackingInUse(old(rows), req.trackingNumber) ==>
        && r == Ok(Shipment(NextId(old(rows)), ParseCreate(req).value, now, now))
        && rows == old(rows)[r.value.id := r.value]
      ensures r.Ok? ==> r.value.id > 0 && forall k :: k in old(rows) ==> k < r.value.id
    {
      var parsed := ParseCreate(req);
      if parsed.None? {
        return Unprocessable;
      }
      var b := parsed.value;
      if TrackingInUse(rows, b.trackingNumber) {
        return Conflict;
      }
      var s := Shipment(NextId(rows), b, now, now);
      InsertKeepsInvariant(rows, now, s);
      rows := rows[s.id := s];
      r := Ok(s);
    }

    /** PUT /shipments/{id}: validate the payload, look the record up, write
        the supplied fields over it and stamp `updatedAt`. The key and
        `createdAt` are kept. A tracking number held by another record is
        refused. */
    method Update(id: int, u: ShipmentUpdate) returns (r: Outcome<Shipment>)
      requires Valid()
      modifies this
      ensures Valid() && now == old(now)
      ensures !ValidUpdate(u) ==> r == Unprocessable && rows == old(rows)
      ensures ValidUpdate(u) && id !in old(rows) ==> r == NotFound && rows == old(rows)
      ensures ValidUpdate(u) && id in old(rows) ==>
        var merged := Merge(old(rows)[id].base, u);
        if TrackingInUse(old(rows) - {id}, merged.trackingNumber) then
          r == Conflict && rows == old(rows)
        else
          && r == Ok(Shipment(id, merged, old(rows)[id].createdAt, now))
          && rows == old(rows)[id := r.value]
    {
      if !ValidUpdate(u) {
        return Unprocessable;
      }
      if id !in rows {
        return NotFound;
      }
      var current := rows[id];
      var merged := ApplyUpdate(current.base, u);
      if TrackingInUse(rows - {id}, merged.trackingNumber) {
        return Conflict;
      }
      MergeValid(current.base, u);
      var s := Shipment(id, merged, current.createdAt, now);
      ReplaceKeepsInvariant(rows, now, s);
      rows := rows[id := s];
      r := Ok(s);
    }

    /** DELETE /shipments/{id}: remove the record, or report that there is
        none. */
    method Delete(id: int) returns (r: Outcome<()>)
      requires Valid()
      modifies this
      ensures Valid() && now == old(now)
      ensures id !in old(rows) ==> r == NotFound && rows == old(rows)
      ensures id in old(rows) ==> r == Ok(()) && rows == old(rows) - {id}
      ensures GetShipment(rows, id) == NotFound
    {
      if id !in rows {
        return NotFound;
      }
      rows := rows - {id};
      r := Ok(());
    }
  }
}
