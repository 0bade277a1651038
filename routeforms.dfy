/** The two route dialogs: creating an event route (field trip or athletics)
    from the event form, and editing a route's name, driver and status. */
module RouteForms {
  import opened Wrappers
  import opened Types
  import Fleet
  import Handlers
  import Store

  // ---------------------------------------------------------------- new event route

  datatype EventType = FieldTripEvent | AthleticsEvent

  datatype EventForm = EventForm(
    eventName: string, destination: string, eventType: EventType,
    date: string, busNumber: string, driver: string)

  /** `value || 'TBD'`: an empty field is filled in. */
  function OrTbd(value: string): (r: string)
    ensures r != ""
    ensures value != "" ==> r == value
    ensures value == "" ==> r == "TBD"
  {
    if value == "" then "TBD" else value
  }

  function KindOf(t: EventType): (k: RouteKind)
    ensures k != Standard
  {
    match t
    case FieldTripEvent => FieldTrip
    case AthleticsEvent => Athletics
  }

  const EventCapacity := 50
  const EventDepot := Coordinates(50.0, 50.0)

  /** The route the event dialog submits. */
  function NewEventRoute(form: EventForm, clock: Clock): (r: BusRoute)
    ensures |r.id| >= 2 && r.id[..2] == "E-" && r.id == StampId("E-", clock)
    ensures r.name == form.eventName
    ensures r.driver == OrTbd(form.driver) && r.busNumber == OrTbd(form.busNumber)
    ensures r.status == Idle && r.capacity == EventCapacity && r.occupancy == 0
    ensures r.nextStop == form.destination && r.destination == Some(form.destination)
    ensures r.estimatedArrival == "10:00" && r.coordinates == EventDepot
    ensures r.kind == Some(KindOf(form.eventType)) && r.eventDate == Some(form.date)
    ensures r.vehicleType == ActivityBus && r.alert == None
  {
    BusRoute(StampId("E-", clock), form.eventName, OrTbd(form.driver), OrTbd(form.busNumber),
             Idle, EventCapacity, 0, form.destination, "10:00", EventDepot, None,
             ActivityBus, NoDetails, Some(KindOf(form.eventType)), Some(form.destination), Some(form.date))
  }

  /** A new event route is parked: the position simulator neither moves it nor
      raises an alert on it until someone changes its status. */
  lemma EventRouteParked(form: EventForm, clock: Clock, d: Fleet.BusDraw)
    ensures Fleet.MoveBus(NewEventRoute(form, clock), d) == NewEventRoute(form, clock)
  {
  }

  /** `handleSubmit` with `onSave` bound to the store's add-event handler (the
      dashboard passes that handler to its special-events page, which is not
      part of this model): the new route is appended to the fleet. */
  method SubmitEvent(store: Store.Dashboard, form: EventForm, clock: Clock)
    modifies store
    ensures store.routes == old(store.routes) + [NewEventRoute(form, clock)]
    ensures store.students == old(store.students) && store.logs == old(store.logs)
    ensures store.tickets == old(store.tickets)
  {
    store.AddEvent(NewEventRoute(form, clock));
  }

  // ---------------------------------------------------------------- route editing

  datatype EditForm = EditForm(name: string, driver: string, status: BusStatus)

  /** The dialog opens on the route's own values. */
  function InitialEditForm(route: BusRoute): (f: EditForm)
    ensures f.name == route.name && f.driver == route.driver && f.status == route.status
  {
    EditForm(route.name, route.driver, route.status)
  }

  /** `{ ...route, name, driver, status }`. */
  function ApplyEdit(route: BusRoute, form: EditForm): (r: BusRoute)
    ensures r.name == form.name && r.driver == form.driver && r.status == form.status
    // Nothing else changes: putting the three fields back gives the original.
    ensures r.(name := route.name, driver := route.driver, status := route.status) == route
  {
    route.(name := form.name, driver := form.driver, status := form.status)
  }

  /** Submitting the dialog untouched saves the route as it was. */
  lemma UneditedSaveIsIdentity(route: BusRoute)
    ensures ApplyEdit(route, InitialEditForm(route)) == route
  {
  }

  /** The status choices are every bus status, each once. */
  lemma StatusChoicesComplete()
    ensures forall s: BusStatus :: s in AllBusStatuses
    ensures |AllBusStatuses| == 5
  {
    AllBusStatusesExact();
  }

  predicate UniqueIds(routes: seq<BusRoute>) {
    forall i, j :: 0 <= i < j < |routes| ==> routes[i].id != routes[j].id
  }

  /** Saving an edit of route i replaces exactly the routes with its id; with
      unique ids that is route i alone. */
  lemma {:induction false} EditThenSave(routes: seq<BusRoute>, i: nat, form: EditForm)
    requires i < |routes|
    ensures var saved := Handlers.SaveRoute(routes, ApplyEdit(routes[i], form));
            && |saved| == |routes|
            && saved[i] == ApplyEdit(routes[i], form)
            && (forall j :: 0 <= j < |routes| && routes[j].id != routes[i].id ==> saved[j] == routes[j])
    ensures UniqueIds(routes) ==>
              Handlers.SaveRoute(routes, ApplyEdit(routes[i], form)) == routes[i := ApplyEdit(routes[i], form)]
  {
    var edited := ApplyEdit(routes[i], form);
    var saved := Handlers.SaveRoute(routes, edited);
    assert edited.id == routes[i].id;
    if UniqueIds(routes) {
      forall j | 0 <= j < |routes| ensures saved[j] == routes[i := edited][j] {
        if j != i {
          assert routes[j].id != routes[i].id by {
            if j < i { assert routes[j].id != routes[i].id; } else { assert routes[i].id != routes[j].id; }
          }
        }
      }
    }
  }
}
