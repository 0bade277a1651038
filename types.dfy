/** The records of the dashboard (buses, students, log entries, maintenance
    tickets; their declarations in src/types.ts are not part of this model, the
    status enums follow the copy in src/services/finalDeploymentExplort.ts) and the injected clock and
    random draws that replace `Date.now`, `toLocale*String` and `Math.random`. */
module Types {
  import opened Wrappers
  import opened Text

  datatype BusStatus = OnRoute | Idle | Delayed | Maintenance | Completed

  /** The enum's string value, as `${status}` prints it. */
  function BusStatusText(s: BusStatus): string {
    match s
    case OnRoute => "On Route"
    case Idle => "Idle"
    case Delayed => "Delayed"
    case Maintenance => "Maintenance"
    case Completed => "Completed"
  }

  /** `Object.values(BusStatus)`, in declaration order. */
  const AllBusStatuses: seq<BusStatus> := [OnRoute, Idle, Delayed, Maintenance, Completed]

  lemma AllBusStatusesExact()
    ensures |AllBusStatuses| == 5
    ensures forall s: BusStatus :: s in AllBusStatuses
    ensures forall i, j :: 0 <= i < j < |AllBusStatuses| ==> AllBusStatuses[i] != AllBusStatuses[j]
    ensures forall i, j :: 0 <= i < j < |AllBusStatuses| ==>
              BusStatusText(AllBusStatuses[i]) != BusStatusText(AllBusStatuses[j])
  {
    forall s: BusStatus ensures s in AllBusStatuses {
      match s
      case OnRoute => assert AllBusStatuses[0] == s;
      case Idle => assert AllBusStatuses[1] == s;
      case Delayed => assert AllBusStatuses[2] == s;
      case Maintenance => assert AllBusStatuses[3] == s;
      case Completed => assert AllBusStatuses[4] == s;
    }
  }

  datatype StudentStatus = OnBus | OffBus | Absent | Unknown

  datatype VehicleType = StandardBus | ActivityBus | Shuttle | WheelchairVan | ElectricBus

  datatype RouteKind = Standard | FieldTrip | Athletics

  /** Schematic-map position, 0..100 on both axes. */
  datatype Coordinates = Coordinates(x: real, y: real)

  datatype HealthStatus = Healthy | HealthWarning | HealthCritical

  datatype BusHealth = BusHealth(status: HealthStatus, batteryVoltage: real, tirePressure: real, oilLevel: real)

  /** The optional vehicle fields no core operation reads or writes. */
  datatype VehicleDetails = VehicleDetails(
    health: Option<BusHealth>, vin: Option<string>, licensePlate: Option<string>,
    make: Option<string>, model: Option<string>, year: Option<int>, mileage: Option<int>)

  const NoDetails := VehicleDetails(None, None, None, None, None, None, None)

  datatype BusRoute = BusRoute(
    id: string,
    name: string,
    driver: string,
    busNumber: string,
    status: BusStatus,
    capacity: int,
    occupancy: int,
    nextStop: string,
    estimatedArrival: string,
    coordinates: Coordinates,
    alert: Option<string>,
    vehicleType: VehicleType,
    details: VehicleDetails,
    kind: Option<RouteKind>,
    destination: Option<string>,
    eventDate: Option<string>)

  datatype Student = Student(
    id: string,
    name: string,
    grade: int,
    school: string,
    rfidTag: string,
    status: StudentStatus,
    lastScanTime: Option<string>,
    lastScanLocation: Option<string>,
    assignedBusId: string,
    photoUrl: Option<string>)

  datatype LogKind = Boarding | Disembarking | AlertRaised | SystemNote | WrongBus | MaintenanceNote

  datatype Severity = Info | Warning | Critical

  datatype LogEntry = LogEntry(id: string, timestamp: string, kind: LogKind, message: string, severity: Severity)

  datatype TicketStatus = Open | InProgress | Resolved

  /** LOW, MEDIUM, HIGH, CRITICAL (Urgent here, to keep Severity.Critical unambiguous). */
  datatype Priority = Low | Medium | High | Urgent

  datatype MaintenanceTicket = MaintenanceTicket(
    id: string,
    busId: string,
    busNumber: string,
    issue: string,
    reportedBy: string,
    reportedAt: string,
    status: TicketStatus,
    priority: Priority,
    progress: int,
    estimatedCompletion: string,
    notes: seq<string>)

  /** One reading of the clock at the moment a handler runs: `Date.now()` and
      the locale renderings the handlers use. */
  datatype Clock = Clock(
    millis: nat,          // Date.now()
    time: string,         // new Date().toLocaleTimeString()
    time24: string,       // new Date().toLocaleTimeString('en-US', { hour12: false })
    dateTime: string,     // new Date().toLocaleString()
    date: string)         // new Date().toLocaleDateString()

  /** A value of `Math.random()`. */
  type Unit = u: real | 0.0 <= u < 1.0

  /** `Math.floor(u * n)`: a uniform index below n. */
  function Pick(u: Unit, n: nat): (k: int)
    ensures n > 0 ==> 0 <= k < n
    ensures n == 0 ==> k == 0
  {
    MulBounds(u, n as real);
    (u * n as real).Floor
  }

  /** A fraction of a non-negative amount lies between 0 and the amount. */
  lemma MulBounds(u: real, m: real)
    requires 0.0 <= u < 1.0 && m >= 0.0
    ensures 0.0 <= u * m
    ensures m > 0.0 ==> u * m < m
  {
    if m > 0.0 {
      assert (1.0 - u) * m > 0.0;
    }
  }

  /** JavaScript truthiness of an optional string: `undefined` and `""` are falsy. */
  predicate Truthy(s: Option<string>) {
    s.Some? && s.value != ""
  }

  /** A time-derived id such as `L-${Date.now()}`. */
  function StampId(prefix: string, clock: Clock): (r: string)
    ensures |r| > |prefix| && r[..|prefix|] == prefix
    ensures forall i :: |prefix| <= i < |r| ==> IsDecimalDigit(r[i])
  {
    prefix + NatToString(clock.millis)
  }
}
