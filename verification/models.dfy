/** The shipment entity: the status enumeration, the base field set with its
    length limits, lower bounds and defaults, the stored shape, the create and
    update request shapes, and the list response. */
module Models {

  datatype Option<+T> = None | Some(value: T) {
    function GetOr(default: T): T {
      match this
      case Some(v) => v
      case None => default
    }
  }

  /** One member of an update request: left out of the request, or supplied.
      Leaving a field out is a state of its own, distinct from supplying a
      default or an empty value. */
  datatype Field<+T> = Absent | Present(value: T)

  /** Calendar dates and timestamps are opaque integers here. */
  type Date = int
  type Timestamp = int

  // ---------------------------------------------------------------------
  // Status enumeration
  // ---------------------------------------------------------------------

  /** The four shipment states. No transition order is imposed between them:
      any state may replace any other. */
  datatype ShipmentStatus = Created | InTransit | Delivered | Canceled

  /** The string each state is written as on the wire. */
  function StatusValue(s: ShipmentStatus): string {
    match s
    case Created => "created"
    case InTransit => "in_transit"
    case Delivered => "delivered"
    case Canceled => "canceled"
  }

  /** Reads a wire string back into a state; only the four values are accepted. */
  function ParseStatus(v: string): (r: Option<ShipmentStatus>)
    ensures r.Some? <==> v in {"created", "in_transit", "delivered", "canceled"}
    ensures r.Some? ==> StatusValue(r.value) == v
  {
    if v == "created" then Some(Created)
    else if v == "in_transit" then Some(InTransit)
    else if v == "delivered" then Some(Delivered)
    else if v == "canceled" then Some(Canceled)
    else None
  }

  /** Writing a state and reading it back yields the same state. */
  lemma StatusRoundTrip(s: ShipmentStatus)
    ensures ParseStatus(StatusValue(s)) == Some(s)
  {
    match s
    case Created =>
    case InTransit => assert StatusValue(s) != "created";
    case Delivered => assert StatusValue(s) != "created" && StatusValue(s) != "in_transit";
    case Canceled =>
      assert StatusValue(s) != "created" && StatusValue(s) != "in_transit" && StatusValue(s) != "delivered";
  }

  // ---------------------------------------------------------------------
  // Field limits and defaults
  // ---------------------------------------------------------------------

  const TrackingNumberMaxLength := 64
  const PartyMaxLength := 120      // shipper, consignee
  const PlaceMaxLength := 160      // origin, destination
  const CarrierMaxLength := 120
  const NotesMaxLength := 800

  const DefaultStatus := Created
  const DefaultPieces := 1
  const DefaultWeightKg := 0.0
  const DefaultCost := 0.0

  predicate FitsIn(s: string, max: nat) {
    |s| <= max
  }

  /** A nullable string respects its limit when it is null or short enough. */
  predicate OptionFitsIn(s: Option<string>, max: nat) {
    s.Some? ==> |s.value| <= max
  }

  // ---------------------------------------------------------------------
  // Shapes
  // ---------------------------------------------------------------------

  /** The base field set shared by the stored and the creatable shapes.
      Weights and costs are reals: only their lower bound is modelled. */
  datatype ShipmentBase = ShipmentBase(
    trackingNumber: string,
    shipper: string,
    consignee: string,
    origin: string,
    destination: string,
    carrier: Option<string>,
    status: ShipmentStatus,
    pieces: int,
    weightKg: real,
    cost: real,
    pickupDate: Option<Date>,
    expectedDelivery: Option<Date>,
    deliveredAt: Option<Timestamp>,
    notes: Option<string>)

  /** Every declared constraint of the base field set. */
  predicate ValidBase(b: ShipmentBase) {
    && FitsIn(b.trackingNumber, TrackingNumberMaxLength)
    && FitsIn(b.shipper, PartyMaxLength)
    && FitsIn(b.consignee, PartyMaxLength)
    && FitsIn(b.origin, PlaceMaxLength)
    && FitsIn(b.destination, PlaceMaxLength)
    && OptionFitsIn(b.carrier, CarrierMaxLength)
    && b.pieces >= 1
    && b.weightKg >= 0.0
    && b.cost >= 0.0
    && OptionFitsIn(b.notes, NotesMaxLength)
  }

  /** The stored shape: the base fields plus the store-assigned primary key
      and the two timestamps. */
  datatype Shipment = Shipment(id: int, base: ShipmentBase, createdAt: Timestamp, updatedAt: Timestamp)

  /** The list response: the number of stored records and one page of them. */
  datatype ShipmentList = ShipmentList(total: int, items: seq<Shipment>)

  // ---------------------------------------------------------------------
  // Create request
  // ---------------------------------------------------------------------

  /** A create request body. The five required strings must be sent; every
      other field may be left out (None), and is then given its default. For
      the nullable fields, leaving them out and sending null are the same. */
  datatype CreateRequest = CreateRequest(
    trackingNumber: string,
    shipper: string,
    consignee: string,
    origin: string,
    destination: string,
    carrier: Option<string>,
    status: Option<ShipmentStatus>,
    pieces: Option<int>,
    weightKg: Option<real>,
    cost: Option<real>,
    pickupDate: Option<Date>,
    expectedDelivery: Option<Date>,
    deliveredAt: Option<Timestamp>,
    notes: Option<string>)

  /** The constraints a create body is checked against: every value that is
      sent must respect its field's limit or bound. */
  predicate ValidCreate(req: CreateRequest) {
    && FitsIn(req.trackingNumber, TrackingNumberMaxLength)
    && FitsIn(req.shipper, PartyMaxLength)
    && FitsIn(req.consignee, PartyMaxLength)
    && FitsIn(req.origin, PlaceMaxLength)
    && FitsIn(req.destination, PlaceMaxLength)
    && OptionFitsIn(req.carrier, CarrierMaxLength)
    && (req.pieces.Some? ==> req.pieces.value >= 1)
    && (req.weightKg.Some? ==> req.weightKg.value >= 0.0)
    && (req.cost.Some? ==> req.cost.value >= 0.0)
    && OptionFitsIn(req.notes, NotesMaxLength)
  }

  function WithDefaults(req: CreateRequest): ShipmentBase {
    ShipmentBase(
      req.trackingNumber, req.shipper, req.consignee, req.origin, req.destination,
      req.carrier,
      req.status.GetOr(DefaultStatus),
      req.pieces.GetOr(DefaultPieces),
      req.weightKg.GetOr(DefaultWeightKg),
      req.cost.GetOr(DefaultCost),
      req.pickupDate, req.expectedDelivery, req.deliveredAt,
      req.notes)
  }

  /** Request-body validation of a create: a body breaking any constraint is
      rejected; otherwise every value sent is kept as sent, and the result
      satisfies every constraint of the base field set. */
  function ParseCreate(req: CreateRequest): (r: Option<ShipmentBase>)
    ensures r.Some? <==> ValidCreate(req)
    ensures r.Some? ==> ValidBase(r.value)
    ensures r.Some? ==>
      && r.value.trackingNumber == req.trackingNumber
      && r.value.shipper == req.shipper
      && r.value.consignee == req.consignee
      && r.value.origin == req.origin
      && r.value.destination == req.destination
      && r.value.carrier == req.carrier
      && (req.status.Some? ==> r.value.status == req.status.value)
      && (req.pieces.Some? ==> r.value.pieces == req.pieces.value)
      && (req.weightKg.Some? ==> r.value.weightKg == req.weightKg.value)
      && (req.cost.Some? ==> r.value.cost == req.cost.value)
      && r.value.pickupDate == req.pickupDate
      && r.value.expectedDelivery == req.expectedDelivery
      && r.value.deliveredAt == req.deliveredAt
      && r.value.notes == req.notes
  {
    if ValidCreate(req) then Some(WithDefaults(req)) else None
  }

  /** Fields left out of a valid create body take their declared defaults. */
  lemma CreateDefaults(req: CreateRequest)
    requires ValidCreate(req)
    ensures req.status.None? ==> ParseCreate(req).value.status == Created
    ensures req.pieces.None? ==> ParseCreate(req).value.pieces == 1
    ensures req.weightKg.None? ==> ParseCreate(req).value.weightKg == 0.0
    ensures req.cost.None? ==> ParseCreate(req).value.cost == 0.0
    ensures req.carrier.None? ==> ParseCreate(req).value.carrier.None?
    ensures req.notes.None? ==> ParseCreate(req).value.notes.None?
  {
  }

  /** The create body that sends every field of a base record. */
  function AsCreateRequest(b: ShipmentBase): CreateRequest {
    CreateRequest(
      b.trackingNumber, b.shipper, b.consignee, b.origin, b.destination,
      b.carrier, Some(b.status), Some(b.pieces), Some(b.weightKg), Some(b.cost),
      b.pickupDate, b.expectedDelivery, b.deliveredAt, b.notes)
  }

  /** The creatable shape adds nothing to the base: sending every field of a
      record yields that very record exactly when the record is valid. */
  lemma CreateRoundTrip(b: ShipmentBase)
    ensures ValidBase(b) ==> ParseCreate(AsCreateRequest(b)) == Some(b)
    ensures !ValidBase(b) ==> ParseCreate(AsCreateRequest(b)) == None
  {
  }

  // ---------------------------------------------------------------------
  // Update request
  // ---------------------------------------------------------------------

  /** An update request body: every field may be left out. The nullable
      fields may also be sent as null (Present(None)). */
  datatype ShipmentUpdate = ShipmentUpdate(
    trackingNumber: Field<string>,
    shipper: Field<string>,
    consignee: Field<string>,
    origin: Field<string>,
    destination: Field<string>,
    carrier: Field<Option<string>>,
    status: Field<ShipmentStatus>,
    pieces: Field<int>,
    weightKg: Field<real>,
    cost: Field<real>,
    pickupDate: Field<Option<Date>>,
    expectedDelivery: Field<Option<Date>>,
    deliveredAt: Field<Option<Timestamp>>,
    notes: Field<Option<string>>)

  /** The update body that supplies nothing. */
  const EmptyUpdate := ShipmentUpdate(
    Absent, Absent, Absent, Absent, Absent, Absent, Absent,
    Absent, Absent, Absent, Absent, Absent, Absent, Absent)

  predicate FieldFitsIn(f: Field<string>, max: nat) {
    f.Present? ==> |f.value| <= max
  }

  predicate NullableFieldFitsIn(f: Field<Option<string>>, max: nat) {
    f.Present? ==> OptionFitsIn(f.value, max)
  }

  /** The constraints an update body is checked against: each supplied value
      respects the same limit or bound as in the creatable shape. */
  predicate ValidUpdate(u: ShipmentUpdate) {
    && FieldFitsIn(u.trackingNumber, TrackingNumberMaxLength)
    && FieldFitsIn(u.shipper, PartyMaxLength)
    && FieldFitsIn(u.consignee, PartyMaxLength)
    && FieldFitsIn(u.origin, PlaceMaxLength)
    && FieldFitsIn(u.destination, PlaceMaxLength)
    && NullableFieldFitsIn(u.carrier, CarrierMaxLength)
    && (u.pieces.Present? ==> u.pieces.value >= 1)
    && (u.weightKg.Present? ==> u.weightKg.value >= 0.0)
    && (u.cost.Present? ==> u.cost.value >= 0.0)
    && NullableFieldFitsIn(u.notes, NotesMaxLength)
  }

  function Override<T>(f: Field<T>, current: T): T {
    if f.Present? then f.value else current
  }

  /** The field-wise meaning of a partial update: a supplied field takes the
      supplied value, every other field keeps the value it had. */
  function Merge(b: ShipmentBase, u: ShipmentUpdate): ShipmentBase {
    ShipmentBase(
      Override(u.trackingNumber, b.trackingNumber),
      Override(u.shipper, b.shipper),
      Override(u.consignee, b.consignee),
      Override(u.origin, b.origin),
      Override(u.destination, b.destination),
      Override(u.carrier, b.carrier),
      Override(u.status, b.status),
      Override(u.pieces, b.pieces),
      Override(u.weightKg, b.weightKg),
      Override(u.cost, b.cost),
      Override(u.pickupDate, b.pickupDate),
      Override(u.expectedDelivery, b.expectedDelivery),
      Override(u.deliveredAt, b.deliveredAt),
      Override(u.notes, b.notes))
  }

  /** A valid update applied to a valid record yields a valid record. */
  lemma MergeValid(b: ShipmentBase, u: ShipmentUpdate)
    requires ValidBase(b) && ValidUpdate(u)
    ensures ValidBase(Merge(b, u))
  {
  }

  /** An update that supplies nothing changes no base field. */
  lemma MergeEmpty(b: ShipmentBase)
    ensures Merge(b, EmptyUpdate) == b
  {
  }

  /** Sending the same update twice has the effect of sending it once. */
  lemma MergeIdempotent(b: ShipmentBase, u: ShipmentUpdate)
    ensures Merge(Merge(b, u), u) == Merge(b, u)
  {
  }

  /** The supplied fields of an update do not depend on the record it is
      applied to, and any status may replace any other. */
  lemma MergeSuppliedWins(b: ShipmentBase, u: ShipmentUpdate)
    ensures u.trackingNumber.Present? ==> Merge(b, u).trackingNumber == u.trackingNumber.value
    ensures u.status.Present? ==> Merge(b, u).status == u.status.value
    ensures u.status.Absent? ==> Merge(b, u).status == b.status
    ensures u.trackingNumber.Absent? ==> Merge(b, u).trackingNumber == b.trackingNumber
  {
  }

  // ---------------------------------------------------------------------
  // Fields by name
  // ---------------------------------------------------------------------

  /** The names of the base fields, as an update body names them. */
  datatype FieldName =
    | TrackingNumberField | ShipperField | ConsigneeField | OriginField | DestinationField
    | CarrierField | StatusField | PiecesField | WeightKgField | CostField
    | PickupDateField | ExpectedDeliveryField | DeliveredAtField | NotesField

  const AllFields: set<FieldName> := {
    TrackingNumberField, ShipperField, ConsigneeField, OriginField, DestinationField,
    CarrierField, StatusField, PiecesField, WeightKgField, CostField,
    PickupDateField, ExpectedDeliveryField, DeliveredAtField, NotesField}

  /** A field value, tagged with the kind of field it belongs to. */
  datatype Value =
    | Text(text: string)
    | NullableText(optText: Option<string>)
    | State(state: ShipmentStatus)
    | Count(count: int)
    | Amount(amount: real)
    | NullableInstant(instant: Option<int>)

  /** The kind of value each field holds. */
  predicate HasTypeOf(f: FieldName, v: Value) {
    match f
    case TrackingNumberField | ShipperField | ConsigneeField | OriginField | DestinationField => v.Text?
    case CarrierField | NotesField => v.NullableText?
    case StatusField => v.State?
    case PiecesField => v.Count?
    case WeightKgField | CostField => v.Amount?
    case PickupDateField | ExpectedDeliveryField | DeliveredAtField => v.NullableInstant?
  }

  /** Reads one field of a record by name. */
  function GetAttr(b: ShipmentBase, f: FieldName): (v: Value)
    ensures HasTypeOf(f, v)
  {
    match f
    case TrackingNumberField => Text(b.trackingNumber)
    case ShipperField => Text(b.shipper)
    case ConsigneeField => Text(b.consignee)
    case OriginField => Text(b.origin)
    case DestinationField => Text(b.destination)
    case CarrierField => NullableText(b.carrier)
    case StatusField => State(b.status)
    case PiecesField => Count(b.pieces)
    case WeightKgField => Amount(b.weightKg)
    case CostField => Amount(b.cost)
    case PickupDateField => NullableInstant(b.pickupDate)
    case ExpectedDeliveryField => NullableInstant(b.expectedDelivery)
    case DeliveredAtField => NullableInstant(b.deliveredAt)
    case NotesField => NullableText(b.notes)
  }

  /** Writes one field of a record by name; every other field is kept. */
  function SetAttr(b: ShipmentBase, f: FieldName, v: Value): (r: ShipmentBase)
    requires HasTypeOf(f, v)
    ensures GetAttr(r, f) == v
    ensures forall g :: g != f ==> GetAttr(r, g) == GetAttr(b, g)
  {
    match f
    case TrackingNumberField => b.(trackingNumber := v.text)
    case ShipperField => b.(shipper := v.text)
    case ConsigneeField => b.(consignee := v.text)
    case OriginField => b.(origin := v.text)
    case DestinationField => b.(destination := v.text)
    case CarrierField => b.(carrier := v.optText)
    case StatusField => b.(status := v.state)
    case PiecesField => b.(pieces := v.count)
    case WeightKgField => b.(weightKg := v.amount)
    case CostField => b.(cost := v.amount)
    case PickupDateField => b.(pickupDate := v.instant)
    case ExpectedDeliveryField => b.(expectedDelivery := v.instant)
    case DeliveredAtField => b.(deliveredAt := v.instant)
    case NotesField => b.(notes := v.optText)
  }

  /** Two records that agree on every field are the same record. */
  lemma FieldsDetermineRecord(b1: ShipmentBase, b2: ShipmentBase)
    requires forall f :: GetAttr(b1, f) == GetAttr(b2, f)
    ensures b1 == b2
  {
    assert GetAttr(b1, TrackingNumberField) == GetAttr(b2, TrackingNumberField);
    assert GetAttr(b1, ShipperField) == GetAttr(b2, ShipperField);
    assert GetAttr(b1, ConsigneeField) == GetAttr(b2, ConsigneeField);
    assert GetAttr(b1, OriginField) == GetAttr(b2, OriginField);
    assert GetAttr(b1, DestinationField) == GetAttr(b2, DestinationField);
    assert GetAttr(b1, CarrierField) == GetAttr(b2, CarrierField);
    assert GetAttr(b1, StatusField) == GetAttr(b2, StatusField);
    assert GetAttr(b1, PiecesField) == GetAttr(b2, PiecesField);
    assert GetAttr(b1, WeightKgField) == GetAttr(b2, WeightKgField);
    assert GetAttr(b1, CostField) == GetAttr(b2, CostField);
    assert GetAttr(b1, PickupDateField) == GetAttr(b2, PickupDateField);
    assert GetAttr(b1, ExpectedDeliveryField) == GetAttr(b2, ExpectedDeliveryField);
    assert GetAttr(b1, DeliveredAtField) == GetAttr(b2, DeliveredAtField);
    assert GetAttr(b1, NotesField) == GetAttr(b2, NotesField);
  }

  /** Whether an update body supplies a field. */
  predicate IsSupplied(u: ShipmentUpdate, f: FieldName) {
    match f
    case TrackingNumberField => u.trackingNumber.Present?
    case ShipperField => u.shipper.Present?
    case ConsigneeField => u.consignee.Present?
    case OriginField => u.origin.Present?
    case DestinationField => u.destination.Present?
    case CarrierField => u.carrier.Present?
    case StatusField => u.status.Present?
    case PiecesField => u.pieces.Present?
    case WeightKgField => u.weightKg.Present?
    case CostField => u.cost.Present?
    case PickupDateField => u.pickupDate.Present?
    case ExpectedDeliveryField => u.expectedDelivery.Present?
    case DeliveredAtField => u.deliveredAt.Present?
    case NotesField => u.notes.Present?
  }

  /** The value an update body supplies for a field. */
  function SuppliedValue(u: ShipmentUpdate, f: FieldName): (v: Value)
    requires IsSupplied(u, f)
    ensures HasTypeOf(f, v)
  {
    match f
    case TrackingNumberField => Text(u.trackingNumber.value)
    case ShipperField => Text(u.shipper.value)
    case ConsigneeField => Text(u.consignee.value)
    case OriginField => Text(u.origin.value)
    case DestinationField => Text(u.destination.value)
    case CarrierField => NullableText(u.carrier.value)
    case StatusField => State(u.status.value)
    case PiecesField => Count(u.pieces.value)
    case WeightKgField => Amount(u.weightKg.value)
    case CostField => Amount(u.cost.value)
    case PickupDateField => NullableInstant(u.pickupDate.value)
    case ExpectedDeliveryField => NullableInstant(u.expectedDelivery.value)
    case DeliveredAtField => NullableInstant(u.deliveredAt.value)
    case NotesField => NullableText(u.notes.value)
  }

  /** The fields an update body supplies, by name, and nothing else: the
      fields that were left out have no entry. */
  function Supplied(u: ShipmentUpdate): (d: map<FieldName, Value>)
    ensures forall f :: f in d <==> IsSupplied(u, f)
    ensures forall f :: f in d ==> HasTypeOf(f, d[f])
  {
    map f | f in AllFields && IsSupplied(u, f) :: SuppliedValue(u, f)
  }

  /** Read by name, the merge holds the supplied value of each supplied field
      and the old value of every other field. */
  lemma MergeByName(b: ShipmentBase, u: ShipmentUpdate, f: FieldName)
    ensures GetAttr(Merge(b, u), f) == if f in Supplied(u) then Supplied(u)[f] else GetAttr(b, f)
  {
  }

  /** An update that supplies nothing supplies no field. */
  lemma EmptyUpdateSuppliesNothing()
    ensures Supplied(EmptyUpdate) == map[]
  {
  }
}
