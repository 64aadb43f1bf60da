/** The records of the booking database. A foreign key is held as the
    related record itself, as the views load it with `select_related`. */
module Domain {
  import opened Base

  datatype VehicleType = Sedan | Hatchback | SUV | Van | Minibus

  /** The stored text of a vehicle type (value and label coincide). */
  function VehicleTypeValue(t: VehicleType): string
  {
    match t
    case Sedan => "Sedan"
    case Hatchback => "Hatchback"
    case SUV => "SUV"
    case Van => "Van"
    case Minibus => "Minibus"
  }

  /** The fields of a vendor that the views read. */
  datatype Vendor = Vendor(id: nat, name: string, district: string)

  datatype Vehicle = Vehicle(
    id: nat,
    number: string,
    vtype: VehicleType,
    make: string,
    model: string,
    vendor: Vendor,
    createdAt: DateTime,
    updatedAt: DateTime,
    pricePerKm: Money)

  /** The rate a vehicle gets when none is entered. */
  const DefaultPricePerKm: Money := 20.00

  /** `str(vehicle)`: "number - type (vendor name)". */
  function VehicleText(v: Vehicle): string
  {
    v.number + " - " + VehicleTypeValue(v.vtype) + " (" + v.vendor.name + ")"
  }

  datatype Customer = Customer(
    id: nat,
    name: string,
    phone: string,
    email: Option<string>,
    address: Option<string>,
    comingFrom: Option<string>,
    fromLocation: Option<string>,
    toLocation: Option<string>,
    vehicleTypeSelected: Option<VehicleType>,
    createdAt: DateTime,
    updatedAt: DateTime)

  /** A pricing bundle. The per-km rate column is not nullable, but the code
      that reads it tests it against None, so the model keeps the option. */
  datatype Package = Package(
    id: nat,
    name: string,
    vehicleType: VehicleType,
    vehicleModel: string,
    charges: Money,
    extraChargePerKm: Option<Money>)

  datatype TripStatus = Upcoming | OnGoing | Completed | Cancelled

  /** The stored text of a status (value and label coincide). */
  function StatusValue(s: TripStatus): string
  {
    match s
    case Upcoming => "Upcoming"
    case OnGoing => "On-going"
    case Completed => "Completed"
    case Cancelled => "Cancelled"
  }

  /** The status a stored text denotes, if any. */
  function StatusFromValue(text: string): (r: Option<TripStatus>)
    ensures r.Some? ==> StatusValue(r.value) == text
  {
    if text == "Upcoming" then Some(Upcoming)
    else if text == "On-going" then Some(OnGoing)
    else if text == "Completed" then Some(Completed)
    else if text == "Cancelled" then Some(Cancelled)
    else None
  }

  datatype Trip = Trip(
    id: nat,
    customer: Customer,
    vehicle: Vehicle,
    tripDate: DateTime,
    package: Option<Package>,
    totalPrice: Money,
    advancePaid: Money,
    advancePaidDate: Option<Date>,
    finalPaymentAmount: Option<Money>,
    finalPaymentDate: Option<Date>,
    vendorPrice: Option<Money>,
    vendorAdvance: Option<Money>,
    vendorAdvanceDate: Option<Date>,
    status: TripStatus,
    additionalDistance: Option<Money>,
    remarks: Option<string>,
    createdAt: DateTime,
    updatedAt: DateTime)

  /** A trip as first stored: every field with a default takes it. */
  function NewTrip(id: nat, customer: Customer, vehicle: Vehicle, tripDate: DateTime, now: DateTime): (t: Trip)
    ensures t.status == Upcoming
    ensures t.totalPrice == 0.0 && t.advancePaid == 0.0
    ensures t.package == None && t.additionalDistance == None
    ensures t.finalPaymentAmount == None && t.vendorPrice == None
    ensures t.createdAt == now && t.updatedAt == now
  {
    Trip(id, customer, vehicle, tripDate, None, 0.0, 0.0, None, None, None, None, None, None,
         Upcoming, None, None, now, now)
  }

  datatype Rating = Rating(tripId: nat, vendor: Vendor, stars: int, comment: Option<string>, createdAt: DateTime)

  /** The validators on `Rating.stars`. */
  predicate StarsInRange(stars: int)
  {
    1 <= stars <= 5
  }

  /** Every status round-trips through its stored text, and distinct statuses
      are stored as distinct texts. */
  lemma StatusValueRoundTrip(s: TripStatus)
    ensures StatusFromValue(StatusValue(s)) == Some(s)
  {
  }
}
