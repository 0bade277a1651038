/** The position simulator: every two seconds each bus that is not in the
    shop drifts by a random step (clamped to the map viewport), and a bus on
    route may pick up a canned incident alert and become Delayed. */
module Fleet {
  import opened Wrappers
  import opened Types

  /** The canned incident messages of the simulator. */
  const AlertCatalog: seq<string> := [
    "Traffic Jam on I-10",
    "Mechanical Issue: Engine Light",
    "Driver Report: Road Blocked",
    "Late Departure",
    "Minor Accident Nearby"]

  /** Probability threshold of the alert draw (`Math.random() < 0.02`). */
  const AlertChance: real := 0.02

  const ViewLow: real := 5.0
  const ViewHigh: real := 95.0

  /** The four `Math.random()` values one bus may consume in a tick. */
  datatype BusDraw = BusDraw(dx: Unit, dy: Unit, alertRoll: Unit, alertPick: Unit)

  /** `(Math.random() - 0.5) * 2`. */
  function Delta(u: Unit): (d: real)
    ensures -1.0 <= d < 1.0
  {
    (u - 0.5) * 2.0
  }

  /** `Math.max(5, Math.min(95, v))`. */
  function ClampToView(v: real): (r: real)
    ensures ViewLow <= r <= ViewHigh
    ensures ViewLow <= v <= ViewHigh ==> r == v
    ensures v < ViewLow ==> r == ViewLow
    ensures v > ViewHigh ==> r == ViewHigh
  {
    if v > ViewHigh then ViewHigh else if v < ViewLow then ViewLow else v
  }

  predicate InView(c: Coordinates) {
    ViewLow <= c.x <= ViewHigh && ViewLow <= c.y <= ViewHigh
  }

  predicate IsMoving(s: BusStatus) {
    s == OnRoute || s == Delayed
  }

  /** One bus's update in a fleet tick. */
  function MoveBus(bus: BusRoute, d: BusDraw): (r: BusRoute)
    // A bus in the shop is returned as it is.
    ensures bus.status == Maintenance ==> r == bus
    // Only position, alert and status can change.
    ensures r == bus.(coordinates := r.coordinates, alert := r.alert, status := r.status)
    // A moving bus ends up inside the viewport, at most one unit away per axis;
    // a parked one keeps its coordinates, in the viewport or not.
    ensures IsMoving(bus.status) ==>
              && InView(r.coordinates)
              && r.coordinates.x == ClampToView(bus.coordinates.x + Delta(d.dx))
              && r.coordinates.y == ClampToView(bus.coordinates.y + Delta(d.dy))
    ensures IsMoving(bus.status) && InView(bus.coordinates) ==>
              -1.0 <= r.coordinates.x - bus.coordinates.x <= 1.0 &&
              -1.0 <= r.coordinates.y - bus.coordinates.y <= 1.0
    ensures !IsMoving(bus.status) ==> r.coordinates == bus.coordinates
    // An alert is injected exactly when the bus is On Route without an alert and the
    // draw succeeds; it then comes from the catalog and the bus becomes Delayed.
    ensures r.alert != bus.alert <==>
              bus.status == OnRoute && !Truthy(bus.alert) && d.alertRoll < AlertChance
    ensures r.alert != bus.alert ==>
              r.status == Delayed && r.alert.Some? && r.alert.value in AlertCatalog
    ensures r.alert == bus.alert ==> r.status == bus.status
    ensures Truthy(bus.alert) ==> r.alert == bus.alert && r.status == bus.status
  {
    if bus.status == Maintenance then bus
    else
      var coords :=
        if IsMoving(bus.status) then
          Coordinates(ClampToView(bus.coordinates.x + Delta(d.dx)),
                      ClampToView(bus.coordinates.y + Delta(d.dy)))
        else bus.coordinates;
      var fires := !Truthy(bus.alert) && bus.status == OnRoute && d.alertRoll < AlertChance;
      var alert := if fires then Some(AlertCatalog[Pick(d.alertPick, |AlertCatalog|)]) else bus.alert;
      var status := if fires then Delayed else bus.status;
      assert fires ==> alert != bus.alert by {
        if fires && bus.alert.Some? {
          assert AlertCatalog[Pick(d.alertPick, |AlertCatalog|)] != "";
        }
      }
      bus.(coordinates := coords, alert := alert, status := status)
  }

  /** `currentRoutes.map(bus => ...)`: one fleet tick, one draw per bus. */
  function FleetTick(routes: seq<BusRoute>, draws: seq<BusDraw>): (r: seq<BusRoute>)
    requires |draws| == |routes|
    ensures |r| == |routes|
    ensures forall i :: 0 <= i < |routes| ==> r[i] == MoveBus(routes[i], draws[i])
  {
    seq(|routes|, i requires 0 <= i < |routes| => MoveBus(routes[i], draws[i]))
  }

  /** Several consecutive fleet ticks. */
  function FleetRun(routes: seq<BusRoute>, ticks: seq<seq<BusDraw>>): (r: seq<BusRoute>)
    requires forall k :: 0 <= k < |ticks| ==> |ticks[k]| == |routes|
    ensures |r| == |routes|
    decreases |ticks|
  {
    if |ticks| == 0 then routes else FleetRun(FleetTick(routes, ticks[0]), ticks[1..])
  }

  /** After a tick, every bus that is On Route or Delayed is inside the viewport. */
  lemma MovingBusesInView(routes: seq<BusRoute>, draws: seq<BusDraw>, i: nat)
    requires |draws| == |routes| && i < |routes|
    requires IsMoving(FleetTick(routes, draws)[i].status)
    ensures InView(FleetTick(routes, draws)[i].coordinates)
  {
  }

  /** A bus in Maintenance is never touched by the simulator, for any number of ticks. */
  lemma {:induction false} MaintenanceBusStaysPut(routes: seq<BusRoute>, ticks: seq<seq<BusDraw>>, i: nat)
    requires forall k :: 0 <= k < |ticks| ==> |ticks[k]| == |routes|
    requires i < |routes| && routes[i].status == Maintenance
    ensures FleetRun(routes, ticks)[i] == routes[i]
    decreases |ticks|
  {
    if |ticks| > 0 {
      var next := FleetTick(routes, ticks[0]);
      assert next[i] == routes[i];
      MaintenanceBusStaysPut(next, ticks[1..], i);
    }
  }

  /** Ticks keep the fleet's identity: ids, bus numbers and order never change,
      and the simulator never sends a bus to, or brings one back from, the shop. */
  lemma {:induction false} FleetRunKeepsIdentity(routes: seq<BusRoute>, ticks: seq<seq<BusDraw>>, i: nat)
    requires forall k :: 0 <= k < |ticks| ==> |ticks[k]| == |routes|
    requires i < |routes|
    ensures FleetRun(routes, ticks)[i].id == routes[i].id
    ensures FleetRun(routes, ticks)[i].busNumber == routes[i].busNumber
    ensures (FleetRun(routes, ticks)[i].status == Maintenance) == (routes[i].status == Maintenance)
    decreases |ticks|
  {
    if |ticks| > 0 {
      FleetRunKeepsIdentity(FleetTick(routes, ticks[0]), ticks[1..], i);
    }
  }

  /** A moving bus that starts in the viewport stays in it for any number of ticks. */
  lemma {:induction false} MovingBusStaysInView(routes: seq<BusRoute>, ticks: seq<seq<BusDraw>>, i: nat)
    requires forall k :: 0 <= k < |ticks| ==> |ticks[k]| == |routes|
    requires i < |routes| && InView(routes[i].coordinates)
    ensures InView(FleetRun(routes, ticks)[i].coordinates)
    decreases |ticks|
  {
    if |ticks| > 0 {
      MovingBusStaysInView(FleetTick(routes, ticks[0]), ticks[1..], i);
    }
  }

  /** The forced-alert scenario: a bus On Route at the map centre without an alert,
      with a successful alert draw, becomes Delayed with a catalog alert, still in view. */
  lemma ForcedAlertScenario(bus: BusRoute, d: BusDraw)
    requires bus.id == "R-1" && bus.status == OnRoute && bus.alert == None
    requires bus.coordinates == Coordinates(50.0, 50.0)
    requires d.alertRoll < AlertChance
    ensures MoveBus(bus, d).status == Delayed
    ensures MoveBus(bus, d).alert.Some? && MoveBus(bus, d).alert.value in AlertCatalog
    ensures InView(MoveBus(bus, d).coordinates)
    ensures MoveBus(bus, d).id == "R-1"
  {
  }
}
