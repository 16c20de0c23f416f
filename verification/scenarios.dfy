/**
 * Client sessions against the shipment API: each method drives a fresh store
 * through a short sequence of requests and checks the answers a client sees.
 */
module Scenarios {
  import opened Models
  import opened Api

  /** A create body carrying only the required fields plus the given
      piece count and weight. */
  function Request(tracking: string, pieces: Option<int>, weight: Option<real>): CreateRequest {
    CreateRequest(tracking, "Acme Corp", "Globex", "Rotterdam", "Hamburg",
      None, None, pieces, weight, None, None, None, None, None)
  }

  /** Create TMS-00001 with 3 pieces weighing 10.5 kg, then read it back. */
  method CreateThenGet() {
    var store := new Store(1000);
    var req := Request("TMS-00001", Some(3), Some(10.5));
    assert ValidCreate(req);
    var created := store.Create(req);
    assert created.Ok?;
    var id := created.value.id;
    var got := GetShipment(store.rows, id);
    assert got.Ok?;
    assert got.value.base.trackingNumber == "TMS-00001";
    assert got.value.base.pieces == 3;
    assert got.value.base.weightKg == 10.5;
    assert got.value.base.status == Created;
    assert StatusValue(got.value.base.status) == "created";
    assert got.value.base.cost == 0.0 && got.value.base.carrier == None;
    assert got.value.createdAt == got.value.updatedAt == 1000;
  }

  /** A second create with the same tracking number is refused and leaves
      the store as it was. */
  method DuplicateTrackingNumber() {
    var store := new Store(0);
    var req := Request("TMS-00002", None, None);
    assert ValidCreate(req);
    var first := store.Create(req);
    assert first.Ok?;
    var before := store.rows;
    assert TrackingInUse(before, "TMS-00002") by {
      assert before[first.value.id].base.trackingNumber == "TMS-00002";
    }
    var second := store.Create(req);
    assert second == Conflict;
    assert store.rows == before && |store.rows| == 1;
  }

  /** A payload breaking a field constraint is refused before anything is
      stored. */
  method InvalidPayload() {
    var store := new Store(0);
    var req := Request("TMS-00003", Some(0), None);
    assert !ValidCreate(req);
    var r := store.Create(req);
    assert r == Unprocessable && store.rows == map[];
  }

  /** PUT on a key nobody holds answers not found and creates nothing. */
  method UpdateMissing() {
    var store := new Store(0);
    var r := store.Update(999999, EmptyUpdate);
    assert r == NotFound;
    assert store.rows == map[];
  }

  /** DELETE then GET on the same key answers not found. */
  method DeleteThenGet() {
    var store := new Store(0);
    var req := Request("TMS-00004", None, None);
    assert ValidCreate(req);
    var created := store.Create(req);
    var id := created.value.id;
    var deleted := store.Delete(id);
    assert deleted == Ok(());
    assert GetShipment(store.rows, id) == NotFound;
    var again := store.Delete(id);
    assert again == NotFound;
  }

  /** An update that supplies nothing moves only `updatedAt`. */
  method EmptyUpdateTouchesTimestamp() {
    var store := new Store(5);
    var req := Request("TMS-00005", Some(2), None);
    assert ValidCreate(req);
    var created := store.Create(req);
    var id := created.value.id;
    store.AdvanceClock(7);
    MergeEmpty(created.value.base);
    var updated := store.Update(id, EmptyUpdate);
    assert updated.Ok?;
    assert updated.value.base == created.value.base;
    assert updated.value.createdAt == 5 && updated.value.updatedAt == 12;
  }

  /** Supplied fields overwrite, the rest stay; status may move anywhere. */
  method PartialUpdate() {
    var store := new Store(0);
    var req := Request("TMS-00006", Some(4), Some(2.5));
    assert ValidCreate(req);
    var created := store.Create(req);
    var id := created.value.id;
    assert created.value.base.status == Created;
    var u := EmptyUpdate.(status := Present(Delivered), notes := Present(Some("left at dock")));
    var updated := store.Update(id, u);
    assert updated.Ok?;
    assert updated.value.base.status == Delivered;
    assert updated.value.base.notes == Some("left at dock");
    assert updated.value.base.pieces == 4 && updated.value.base.weightKg == 2.5;
    var back := store.Update(id, EmptyUpdate.(status := Present(Created), notes := Present(None)));
    assert back.Ok? && back.value.base.status == Created && back.value.base.notes == None;
  }

  /** Out-of-range paging parameters are clamped, never rejected. */
  method PagingClamps() {
    assert ClampLimit(0) == 1;
    assert ClampLimit(1000) == 100;
    assert ClampOffset(-5) == 0;
    var store := new Store(0);
    var req := Request("TMS-00007", None, None);
    assert ValidCreate(req);
    var created := store.Create(req);
    var page := ListShipments(store.rows, 0, -5);
    assert page.total == 1 && |page.items| == 1;
    NewestFirst(map[], created.value, 0);
    assert page.items[0] == created.value;
  }
}
