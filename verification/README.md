# Shipment tracking API — a Dafny model

This project models the core of a small shipment-tracking service: the
`Shipment` record and its field constraints (`backend/app/models.py`), and
the HTTP handlers that list, create, read, update and delete shipments, plus
the liveness check (`backend/app/main.py`).

- `models.dfy` (module `Models`) holds the record shapes as datatypes:
  - the four-state `ShipmentStatus` and its wire strings;
  - the base field set with its length limits, numeric bounds and defaults;
  - the stored record with its key and timestamps, and the list envelope;
  - the create body, with `Option` for every defaulted field;
  - the update body, where every field is `Absent` or `Present` and the
    nullable columns may be sent as null.

  Request validation is `ParseCreate` and `ValidUpdate`. Partial update is
  `Merge`. The handler's `setattr` loop works on records by field name
  through `GetAttr`/`SetAttr` over `FieldName`.
- `main.dfy` (module `Api`) holds the handlers:
  - listing and lookup read the table and are functions
    (`ListShipments`, `GetShipment`);
  - create, update and delete change the table in place, so they are methods
    of the `Store` class. Its fields are the table (`rows`, keyed by primary
    key) and the clock (`now`).
  - `Store.Valid()` is the store invariant, kept by every method:
    - each record is stored under its own positive key and satisfies every
      field constraint;
    - `createdAt <= updatedAt <=` the clock;
    - no two records share a tracking number.
  - The update handler's loop over the supplied fields is the method
    `ApplyUpdate`, proved equal to `Merge` whatever order the fields are
    visited in.
- `scenarios.dfy` (module `Scenarios`) drives a fresh store through short
  client sessions and checks the answers. These are: create then get,
  duplicate tracking number, invalid payload, update of a missing key,
  delete then get, empty update, partial update and paging clamps.

Responses are the constructors of `Outcome`:

| constructor | HTTP response |
|---|---|
| `Ok` | 200, 201 or 204 |
| `NotFound` | 404 |
| `Unprocessable` | 422, a request-body validation error |
| `Conflict` | the unique-constraint violation on `tracking_number` |

Two points about what the model promises:

- An update validates only the fields that were sent, against the
  `ShipmentUpdate` constraints (`backend/app/models.py:42-56`), and then
  writes them; the merged record is not validated again. The model does the
  same. `MergeValid` proves that a valid update of a valid record always
  yields a valid record.
- Ids are assigned by the storage engine. The model gives a new record the key
  one past the highest stored key; this rule is an assumption. Under it a key
  can be reused once the highest record is deleted. So the model promises only
  that a new key is positive, fresh and greater than every stored key, not that
  keys increase across deletions.

## Model

| member | source | states |
|---|---|---|
| Models.ParseStatus | backend/app/models.py:8-12 | exactly the four wire strings "created", "in_transit", "delivered", "canceled" are accepted, and each reads back as the state that writes it |
| Models.StatusRoundTrip | backend/app/models.py:8-12 | every state survives writing it as its wire string and reading it back |
| Models.ParseCreate | backend/app/models.py:15-29 | a create body is accepted iff every string fits its limit (64/120/120/160/160/120/800), pieces >= 1, weight and cost >= 0; an accepted body satisfies every base constraint and keeps every value that was sent |
| Models.CreateDefaults | backend/app/models.py:21-29 | fields left out of a create body take their defaults: status created, pieces 1, weight 0, cost 0, no carrier, no notes |
| Models.CreateRoundTrip | backend/app/models.py:38-39 | the creatable shape is the base shape: sending every field of a record yields exactly that record when it is valid, and a rejection when it is not |
| Models.MergeValid | backend/app/models.py:42-56 | an update that passes its own field constraints, applied to a valid record, leaves every base constraint satisfied |
| Models.MergeEmpty | backend/app/main.py:65-67 | an update that supplies nothing changes no base field |
| Models.MergeIdempotent | backend/app/main.py:65-67 | applying the same update twice has the effect of applying it once |
| Models.MergeSuppliedWins | backend/app/main.py:65-67 | a supplied tracking number or status replaces the old one, whatever it was (any status may follow any other); an absent one keeps the old one |
| Models.GetAttr | backend/app/main.py:67 | reading a field by name yields a value of that field's type |
| Models.SetAttr | backend/app/main.py:67 | writing a field by name sets that field to the value and leaves every other field as it was |
| Models.FieldsDetermineRecord | backend/app/models.py:15-29 | the fourteen named fields determine a base record: two records that agree on every field are equal |
| Models.Supplied | backend/app/main.py:65 | the fields of an update body that were sent, by name, with their values; a field left out has no entry |
| Models.MergeByName | backend/app/main.py:65-67 | after a merge, each field holds the supplied value when it was sent and its old value otherwise |
| Models.EmptyUpdateSuppliesNothing | backend/app/main.py:65 | an update body with every field left out supplies no field |
| Api.ClampLimit | backend/app/main.py:34 | the page size is always between 1 and 100; in-range values are kept, smaller ones become 1, larger ones 100 |
| Api.ClampOffset | backend/app/main.py:35 | the offset is never negative; a negative offset becomes 0, others are kept |
| Api.IdsDescending | backend/app/main.py:37 | the key order of a listing has one entry per stored key: every stored key appears and nothing else does |
| Api.IdsDescendingSorted | backend/app/main.py:37 | that key order is strictly descending by id, so no key appears twice |
| Api.Records | backend/app/main.py:38 | the records fetched for a list of keys, in the order of the keys |
| Api.Window | backend/app/main.py:37 | an offset/limit window: skips `offset` entries and keeps at most `limit`, in order |
| Api.PageIds | backend/app/main.py:34-37 | the keys of one page: after clamping, entry i is the (offset + i)-th highest stored key, and there are min(limit, total - offset) of them (never fewer than 0) |
| Api.ListDefault | backend/app/main.py:29-31 | a list request without query parameters has the full count as total and returns the records of the min(10, total) highest keys, highest first |
| Api.ListShipments | backend/app/main.py:34-39 | `total` is the number of stored records whatever the page; the page holds min(limit, total - offset) records (never fewer than 0), and item i is the record with the (offset + i)-th highest key, after clamping |
| Api.ListOrdered | backend/app/main.py:37 | every listed item is a stored record, and the items' keys are strictly descending |
| Api.NewestFirst | backend/app/main.py:37 | a record keyed above every stored key heads the first page |
| Api.Listing | backend/app/main.py:37-38 | the full listing: one record per stored key, entry i being the record with the i-th highest key |
| Api.PageAt | backend/app/main.py:37-38 | a page starting at a stored position is the slice of the full listing from the offset to the offset plus the clamped limit (or the end) |
| Api.WalkCovers | backend/app/main.py:37-38 | any walk that yields the next n entries of a list and then continues n further on, and yields nothing past the end, yields the whole rest of the list |
| Api.AllPagesFrom | backend/app/main.py:37-38 | walking the pages from an offset, advancing by the clamped limit, returns the full listing from that offset on, in order |
| Api.PagesCoverStore | backend/app/main.py:34-39 | walking every page from offset 0 returns every stored record exactly once, newest key first |
| Api.GetShipment | backend/app/main.py:52-56 | a lookup succeeds iff the key is stored and then returns that record; otherwise it is not found |
| Api.Healthcheck | backend/app/main.py:87-88 | the answer has the single key "status" with value "ok" |
| Api.NextId | backend/app/models.py:33 | a new key is positive and greater than every stored key, hence fresh |
| Api.InsertKeepsInvariant | backend/app/models.py:16 | adding a valid record under a fresh key with an unused tracking number keeps the store invariant, including unique tracking numbers |
| Api.ReplaceKeepsInvariant | backend/app/main.py:69-71 | replacing a record by a valid one whose tracking number no other record holds keeps the store invariant |
| Api.ApplyUpdate | backend/app/main.py:65-67 | writing the supplied fields one by one, in any order, yields the field-wise merge of the update into the record |
| Api.Store.constructor | backend/app/models.py:32-35 | the shipment table of a new database: it holds no record, the clock reads the given time, and the invariant holds |
| Api.Store.AdvanceClock | backend/app/models.py:34-35 | time moves forward; no record changes and the invariant still holds |
| Api.Store.Create | backend/app/main.py:43-48 | an invalid body is refused with nothing stored; a tracking number already in use is a conflict with nothing stored; otherwise the parsed record is stored under the next key with both timestamps at the current time and returned, and no other record changes |
| Api.Store.Update | backend/app/main.py:60-73 | an invalid body is refused; a missing key is not found; otherwise the supplied fields are written over the record, `updatedAt` becomes the current time, the key and `createdAt` are kept, and only that record changes, unless another record holds the resulting tracking number, which is a conflict with nothing changed |
| Api.Store.Delete | backend/app/main.py:77-83 | a missing key is not found and nothing changes; otherwise exactly that record is removed, and afterwards a lookup of the key is not found |

## Left out

- The SQL session, engine and `database.py` (`get_session`, `init_db`) are not part of this model. The table is a map from key to record held by the `Store`, and each handler's commit is one atomic replacement of that map. The `Store` constructor stands for the table of a new database. A table that already holds rows at startup is not modelled; the model reaches such a table only through its own operations.
- Key assignment belongs to the storage engine. The model uses one past the highest stored key (`NextId`), an assumption, and promises only freshness and positivity, not that keys increase across deletions.
- A duplicate tracking number is rejected by the column's unique constraint at commit. The handlers do not catch that error, so a client sees a server error, not a dedicated conflict status. The model returns `Conflict`, with nothing changed, on both create and update.
- `datetime.utcnow()` is the `Store`'s logical clock `now`, moved only by `AdvanceClock`. Both timestamps of a new record take the same clock reading.
- Store.AdvanceClock: the clock is assumed never to go backwards (`dt: nat`). The source reads a wall clock, which can step back, and then an update can store `updated_at` earlier than `created_at`. The invariant `createdAt <= updatedAt <= now` in `Store.Valid()` holds only under this assumption.
- Floats are modelled as `real` without rounding. Dates and datetimes are integers. ISO-8601 serialisation is not modelled.
- Explicit `null` sent for a required column in an update passes the update's validation and then fails at commit. Update fields of required columns are `Field<T>`, so this input cannot be expressed; only nullable columns accept null (`Present(None)`).
- Validation error details (which field, which rule) are collapsed into `Unprocessable`. Type coercion of request bodies by the web framework is not modelled: bodies arrive already typed, with `status` as a `ShipmentStatus`, whose wire form is `StatusValue`/`ParseStatus`.
- CORS middleware, the startup hook (`backend/app/main.py:23-25`), dependency injection, the seed script and the frontend types are not part of this model. Neither are the HTTP status codes, beyond the `Outcome` constructors.
- Concurrent requests are not modelled. Every handler runs alone on the store.
- Integers are unbounded. The storage engine bounds ids, the list offset and `pieces` to its integer column range, typically 64-bit (32-bit for an `Integer` column on some engines). Past that range, a list request, a lookup, an update, a delete or a create fails in the engine with an unhandled error, a server error for the client. The model does not capture those failures. For such inputs `ListShipments` returns the count and an empty page, `GetShipment`, `Store.Update` and `Store.Delete` answer not found, and `Store.Create` succeeds.
