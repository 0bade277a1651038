/** The dashboard's event handlers over the fleet, the students, the tickets and
    the log: alert dismissal, the maintenance-ticket workflow, driver status
    reports, and the replace-by-id edits. Each is the pure update one handler
    passes to its state setter. */
module Handlers {
  import opened Wrappers
  import opened Text
  import opened Seqs
  import opened Types
  import opened LogSink
  import Fleet

  // ---------------------------------------------------------------- replace-by-id

  /** `routes.map(r => r.id === updated.id ? updated : r)` (handleSaveRoute). */
  function SaveRoute(routes: seq<BusRoute>, updated: BusRoute): (r: seq<BusRoute>)
    ensures |r| == |routes|
    ensures forall i :: 0 <= i < |routes| && routes[i].id != updated.id ==> r[i] == routes[i]
    ensures forall i :: 0 <= i < |routes| && routes[i].id == updated.id ==> r[i] == updated
  {
    MapWhere(routes, (x: BusRoute) => x.id == updated.id, (x: BusRoute) => updated)
  }

  /** `tickets.map(t => t.id === updated.id ? updated : t)` (handleUpdateTicket). */
  function UpdateTicket(tickets: seq<MaintenanceTicket>, updated: MaintenanceTicket): (r: seq<MaintenanceTicket>)
    ensures |r| == |tickets|
    ensures forall i :: 0 <= i < |tickets| && tickets[i].id != updated.id ==> r[i] == tickets[i]
    ensures forall i :: 0 <= i < |tickets| && tickets[i].id == updated.id ==> r[i] == updated
  {
    MapWhere(tickets, (x: MaintenanceTicket) => x.id == updated.id, (x: MaintenanceTicket) => updated)
  }

  /** `students.map(s => s.id === updated.id ? updated : s)` (handleStudentUpdate). */
  function UpdateStudent(students: seq<Student>, updated: Student): (r: seq<Student>)
    ensures |r| == |students|
    ensures forall i :: 0 <= i < |students| && students[i].id != updated.id ==> r[i] == students[i]
    ensures forall i :: 0 <= i < |students| && students[i].id == updated.id ==> r[i] == updated
  {
    MapWhere(students, (x: Student) => x.id == updated.id, (x: Student) => updated)
  }

  /** An unmatched id is a silent no-op, and saving twice is saving once. */
  lemma SaveRouteNoOpAndIdempotent(routes: seq<BusRoute>, updated: BusRoute)
    ensures (forall i :: 0 <= i < |routes| ==> routes[i].id != updated.id) ==> SaveRoute(routes, updated) == routes
    ensures SaveRoute(SaveRoute(routes, updated), updated) == SaveRoute(routes, updated)
  {
  }

  lemma UpdateTicketNoOpAndIdempotent(tickets: seq<MaintenanceTicket>, updated: MaintenanceTicket)
    ensures (forall i :: 0 <= i < |tickets| ==> tickets[i].id != updated.id) ==> UpdateTicket(tickets, updated) == tickets
    ensures UpdateTicket(UpdateTicket(tickets, updated), updated) == UpdateTicket(tickets, updated)
  {
  }

  lemma UpdateStudentNoOpAndIdempotent(students: seq<Student>, updated: Student)
    ensures (forall i :: 0 <= i < |students| ==> students[i].id != updated.id) ==> UpdateStudent(students, updated) == students
    ensures UpdateStudent(UpdateStudent(students, updated), updated) == UpdateStudent(students, updated)
  {
  }

  // ---------------------------------------------------------------- alert dismissal

  /** `{ ...r, alert: undefined, status: r.status === DELAYED ? ON_ROUTE : r.status }`. */
  function ClearAlert(r: BusRoute): (c: BusRoute)
    ensures c.alert == None
    ensures r.status == Delayed ==> c.status == OnRoute
    ensures r.status != Delayed ==> c.status == r.status
    ensures c == r.(alert := None, status := c.status)
  {
    r.(alert := None, status := if r.status == Delayed then OnRoute else r.status)
  }

  function DismissAlert(routes: seq<BusRoute>, busId: string): (r: seq<BusRoute>)
    ensures |r| == |routes|
    ensures forall i :: 0 <= i < |routes| ==> r[i] == if routes[i].id == busId then ClearAlert(routes[i]) else routes[i]
  {
    MapWhere(routes, (x: BusRoute) => x.id == busId, ClearAlert)
  }

  function DismissLog(busId: string, clock: Clock): (e: LogEntry)
    ensures e.kind == SystemNote && e.severity == Info && e.id == StampId("L-", clock)
  {
    LogEntry(StampId("L-", clock), clock.time, SystemNote, "Alert dismissed for bus " + busId, Info)
  }

  /** Dismissing twice is dismissing once: a cleared bus is On Route, not Delayed. */
  lemma DismissIdempotent(routes: seq<BusRoute>, busId: string)
    ensures DismissAlert(DismissAlert(routes, busId), busId) == DismissAlert(routes, busId)
  {
  }

  // ---------------------------------------------------------------- maintenance tickets

  /** The ticket a driver's mechanical-issue report opens. */
  function NewTicket(busId: string, busNumber: string, clock: Clock): (t: MaintenanceTicket)
    ensures t.status == Open && t.priority == Medium && t.progress == 0 && t.notes == []
    ensures t.busId == busId && t.busNumber == busNumber && t.id == StampId("M-", clock)
  {
    MaintenanceTicket(StampId("M-", clock), busId, busNumber, "Driver Reported Mechanical Issue",
                      "Driver App (Simulated)", clock.dateTime, Open, Medium, 0, "TBD", [])
  }

  /** `{ ...r, status: MAINTENANCE, alert: undefined }` for the reported bus. */
  function SendToShop(routes: seq<BusRoute>, busId: string): (r: seq<BusRoute>)
    ensures |r| == |routes|
    ensures forall i :: 0 <= i < |routes| && routes[i].id == busId ==>
              r[i] == routes[i].(status := Maintenance, alert := None)
    ensures forall i :: 0 <= i < |routes| && routes[i].id != busId ==> r[i] == routes[i]
  {
    MapWhere(routes, (x: BusRoute) => x.id == busId, (x: BusRoute) => x.(status := Maintenance, alert := None))
  }

  function ReportLog(busNumber: string, ticket: MaintenanceTicket, clock: Clock): (e: LogEntry)
    ensures e.kind == MaintenanceNote && e.severity == Warning
    ensures Contains(e.message, ticket.id)
  {
    var before := "Bus " + busNumber + " marked for maintenance. Ticket #";
    var after := " created.";
    ContainsInfix(before, ticket.id, after);
    LogEntry(StampId("L-MAINT-", clock), clock.time, MaintenanceNote, before + ticket.id + after, Warning)
  }

  /** `{ ...r, status: IDLE }` for the resolved ticket's bus. */
  function ReturnToFleet(routes: seq<BusRoute>, busId: string): (r: seq<BusRoute>)
    ensures |r| == |routes|
    ensures forall i :: 0 <= i < |routes| && routes[i].id == busId ==> r[i] == routes[i].(status := Idle)
    ensures forall i :: 0 <= i < |routes| && routes[i].id != busId ==> r[i] == routes[i]
  {
    MapWhere(routes, (x: BusRoute) => x.id == busId, (x: BusRoute) => x.(status := Idle))
  }

  function ResolveLog(ticketId: string, clock: Clock): (e: LogEntry)
    ensures e.kind == SystemNote && e.severity == Info && Contains(e.message, ticketId)
  {
    var before := "Maintenance Ticket #";
    var after := " resolved. Bus returned to fleet.";
    ContainsInfix(before, ticketId, after);
    LogEntry(StampId("L-RESOLVE-", clock), clock.time, SystemNote, before + ticketId + after, Info)
  }

  /** Every open ticket's bus is in the shop. */
  ghost predicate TicketsGrounded(routes: seq<BusRoute>, tickets: seq<MaintenanceTicket>) {
    forall i, j ::
      (0 <= i < |tickets| && 0 <= j < |routes| && tickets[i].status == Open && routes[j].id == tickets[i].busId)
      ==> routes[j].status == Maintenance
  }

  /** Reporting an issue keeps every open ticket grounded, the new one included. */
  lemma ReportKeepsGrounded(routes: seq<BusRoute>, tickets: seq<MaintenanceTicket>,
                            busId: string, busNumber: string, clock: Clock)
    requires TicketsGrounded(routes, tickets)
    ensures TicketsGrounded(SendToShop(routes, busId), [NewTicket(busId, busNumber, clock)] + tickets)
  {
    var routes' := SendToShop(routes, busId);
    var tickets' := [NewTicket(busId, busNumber, clock)] + tickets;
    forall i, j | 0 <= i < |tickets'| && 0 <= j < |routes'| && tickets'[i].status == Open
        && routes'[j].id == tickets'[i].busId
      ensures routes'[j].status == Maintenance
    {
      if i > 0 {
        assert tickets'[i] == tickets[i - 1];
      }
    }
  }

  /** The position simulator keeps every open ticket grounded. */
  lemma FleetTickKeepsGrounded(routes: seq<BusRoute>, draws: seq<Fleet.BusDraw>, tickets: seq<MaintenanceTicket>)
    requires |draws| == |routes| && TicketsGrounded(routes, tickets)
    ensures TicketsGrounded(Fleet.FleetTick(routes, draws), tickets)
  {
  }

  /** Dismissing an alert keeps every open ticket grounded. */
  lemma DismissKeepsGrounded(routes: seq<BusRoute>, busId: string, tickets: seq<MaintenanceTicket>)
    requires TicketsGrounded(routes, tickets)
    ensures TicketsGrounded(DismissAlert(routes, busId), tickets)
  {
  }

  /** Resolving returns the bus to Idle whatever its status, but leaves its ticket
      Open: grounding is restored only once the caller also updates the ticket. */
  lemma ReportThenResolve(routes: seq<BusRoute>, tickets: seq<MaintenanceTicket>, busId: string,
                          busNumber: string, c1: Clock, i: nat)
    requires i < |routes| && routes[i].id == busId
    ensures var t := NewTicket(busId, busNumber, c1);
            var routes' := ReturnToFleet(SendToShop(routes, busId), busId);
            && routes'[i].status == Idle && routes'[i].alert == None
            && t.status == Open
            && !TicketsGrounded(routes', [t] + tickets)
  {
    var t := NewTicket(busId, busNumber, c1);
    var routes' := ReturnToFleet(SendToShop(routes, busId), busId);
    var tickets' := [t] + tickets;
    assert tickets'[0] == t;
  }

  // ---------------------------------------------------------------- driver status

  /** `{ ...r, status, alert: typeof alertMsg === 'string' ? alertMsg : undefined }`. */
  function SetDriverStatus(routes: seq<BusRoute>, busId: string, status: BusStatus,
                           alertMsg: Option<string>): (r: seq<BusRoute>)
    ensures |r| == |routes|
    ensures forall i :: 0 <= i < |routes| && routes[i].id == busId ==>
              r[i] == routes[i].(status := status, alert := alertMsg)
    ensures forall i :: 0 <= i < |routes| && routes[i].id != busId ==> r[i] == routes[i]
  {
    MapWhere(routes, (x: BusRoute) => x.id == busId, (x: BusRoute) => x.(status := status, alert := alertMsg))
  }

  /** The log entry of a driver status report about `route`. A present but empty
      message is falsy: it is logged as a plain status change. */
  function DriverLog(route: BusRoute, status: BusStatus, alertMsg: Option<string>, clock: Clock): (e: LogEntry)
    ensures e.severity == Critical <==> Truthy(alertMsg) && Contains(alertMsg.value, "EMERGENCY")
    ensures e.severity == Warning <==> Truthy(alertMsg) && !Contains(alertMsg.value, "EMERGENCY")
    ensures e.severity == Info <==> !Truthy(alertMsg)
    ensures e.kind == (if Truthy(alertMsg) then AlertRaised else SystemNote)
    ensures Truthy(alertMsg) ==> Contains(e.message, alertMsg.value)
    ensures !Truthy(alertMsg) ==> Contains(e.message, BusStatusText(status))
  {
    var id := StampId("L-DRIVER-", clock);
    if Truthy(alertMsg) then
      var msg := alertMsg.value;
      ContainsInfix("Bus " + route.busNumber + " Alert: ", msg, "");
      assert "Bus " + route.busNumber + " Alert: " + msg + "" == "Bus " + route.busNumber + " Alert: " + msg;
      LogEntry(id, clock.time, AlertRaised, "Bus " + route.busNumber + " Alert: " + msg,
               if Contains(msg, "EMERGENCY") then Critical else Warning)
    else
      ContainsInfix("Bus " + route.busNumber + " status updated to ", BusStatusText(status), "");
      assert "Bus " + route.busNumber + " status updated to " + BusStatusText(status) + ""
          == "Bus " + route.busNumber + " status updated to " + BusStatusText(status);
      LogEntry(id, clock.time, SystemNote, "Bus " + route.busNumber + " status updated to " + BusStatusText(status), Info)
  }

  /** The log after a driver status report, looked up in the routes as they were
      before the report (the handler's closure): capped push if the bus exists. */
  function DriverLogs(routes: seq<BusRoute>, logs: seq<LogEntry>, busId: string, status: BusStatus,
                      alertMsg: Option<string>, clock: Clock): (r: seq<LogEntry>)
    ensures (forall i :: 0 <= i < |routes| ==> routes[i].id != busId) ==> r == logs
    ensures (exists i :: 0 <= i < |routes| && routes[i].id == busId) ==>
              && 1 <= |r| <= LogCap
              && exists i :: 0 <= i < |routes| && routes[i].id == busId
                   && (forall j :: 0 <= j < i ==> routes[j].id != busId)
                   && r == Push(logs, DriverLog(routes[i], status, alertMsg, clock))
  {
    match Find(routes, (x: BusRoute) => x.id == busId)
    case None => logs
    case Some(route) => Push(logs, DriverLog(route, status, alertMsg, clock))
  }
}
