/** The dashboard's in-memory store: the four collections the App component
    keeps in state (routes, students, logs, maintenance tickets). Every timer
    tick and every handler overwrites one or more of them; each method below is
    one such step, run to completion as the browser's event loop does. */
module Store {
  import opened Wrappers
  import opened Types
  import opened LogSink
  import opened Handlers
  import Fleet
  import Ridership

  class Dashboard {
    var routes: seq<BusRoute>
    var students: seq<Student>
    var logs: seq<LogEntry>
    var tickets: seq<MaintenanceTicket>

    /** The seed data (INITIAL_ROUTES and friends, which are not part of this model). */
    constructor (routes0: seq<BusRoute>, students0: seq<Student>, logs0: seq<LogEntry>,
                 tickets0: seq<MaintenanceTicket>)
      ensures routes == routes0 && students == students0 && logs == logs0 && tickets == tickets0
    {
      routes, students, logs, tickets := routes0, students0, logs0, tickets0;
    }

    /** The position simulator's 2-second tick, one draw per bus. */
    method FleetTick(draws: seq<Fleet.BusDraw>)
      requires |draws| == |routes|
      modifies this
      ensures routes == Fleet.FleetTick(old(routes), draws)
      ensures students == old(students) && logs == old(logs) && tickets == old(tickets)
    {
      routes := Fleet.FleetTick(routes, draws);
    }

    /** The ridership simulator's 3.5-second tick: students and log change together. */
    method RidershipTick(d: Ridership.ScanDraw, clock: Clock)
      modifies this
      ensures (students, logs) == Ridership.RidershipTick(old(students), old(logs), d, clock)
      ensures routes == old(routes) && tickets == old(tickets)
      ensures |Ridership.Eligible(old(students))| == 0 ==> students == old(students) && logs == old(logs)
      ensures |Ridership.Eligible(old(students))| > 0 ==> |students| == |old(students)| && 1 <= |logs| <= LogCap
    {
      var next := Ridership.RidershipTick(students, logs, d, clock);
      if |Ridership.Eligible(students)| > 0 {
        Ridership.RidershipTickEffect(students, logs, d, clock);
      }
      students, logs := next.0, next.1;
    }

    method SaveRoute(updated: BusRoute)
      modifies this
      ensures routes == Handlers.SaveRoute(old(routes), updated)
      ensures students == old(students) && logs == old(logs) && tickets == old(tickets)
    {
      routes := Handlers.SaveRoute(routes, updated);
    }

    method DismissAlert(busId: string, clock: Clock)
      modifies this
      ensures routes == Handlers.DismissAlert(old(routes), busId)
      ensures logs == Prepend(old(logs), DismissLog(busId, clock))
      ensures students == old(students) && tickets == old(tickets)
    {
      routes := Handlers.DismissAlert(routes, busId);
      logs := Prepend(logs, DismissLog(busId, clock));
    }

    method ReportMechanicalIssue(busId: string, busNumber: string, clock: Clock)
      modifies this
      ensures tickets == [NewTicket(busId, busNumber, clock)] + old(tickets)
      ensures routes == SendToShop(old(routes), busId)
      ensures logs == Prepend(old(logs), ReportLog(busNumber, NewTicket(busId, busNumber, clock), clock))
      ensures students == old(students)
      ensures TicketsGrounded(old(routes), old(tickets)) ==> TicketsGrounded(routes, tickets)
    {
      var ticket := NewTicket(busId, busNumber, clock);
      if TicketsGrounded(routes, tickets) {
        ReportKeepsGrounded(routes, tickets, busId, busNumber, clock);
      }
      tickets := [ticket] + tickets;
      routes := SendToShop(routes, busId);
      logs := Prepend(logs, ReportLog(busNumber, ticket, clock));
    }

    method UpdateTicket(updated: MaintenanceTicket)
      modifies this
      ensures tickets == Handlers.UpdateTicket(old(tickets), updated)
      ensures routes == old(routes) && students == old(students) && logs == old(logs)
    {
      tickets := Handlers.UpdateTicket(tickets, updated);
    }

    /** Sends the bus back to Idle; the ticket list is not touched. */
    method ResolveTicket(ticketId: string, busId: string, clock: Clock)
      modifies this
      ensures routes == ReturnToFleet(old(routes), busId)
      ensures logs == Prepend(old(logs), ResolveLog(ticketId, clock))
      ensures tickets == old(tickets) && students == old(students)
    {
      routes := ReturnToFleet(routes, busId);
      logs := Prepend(logs, ResolveLog(ticketId, clock));
    }

    method StudentUpdate(updated: Student)
      modifies this
      ensures students == UpdateStudent(old(students), updated)
      ensures routes == old(routes) && logs == old(logs) && tickets == old(tickets)
    {
      students := UpdateStudent(students, updated);
    }

    method StudentImport(newStudents: seq<Student>)
      modifies this
      ensures students == old(students) + newStudents
      ensures routes == old(routes) && logs == old(logs) && tickets == old(tickets)
    {
      students := students + newStudents;
    }

    method FleetImport(newRoutes: seq<BusRoute>)
      modifies this
      ensures routes == old(routes) + newRoutes
      ensures students == old(students) && logs == old(logs) && tickets == old(tickets)
    {
      routes := routes + newRoutes;
    }

    method AddEvent(newRoute: BusRoute)
      modifies this
      ensures routes == old(routes) + [newRoute]
      ensures students == old(students) && logs == old(logs) && tickets == old(tickets)
    {
      routes := routes + [newRoute];
    }

    /** The log is built from the routes as they were before the update. */
    method UpdateDriverStatus(busId: string, status: BusStatus, alertMsg: Option<string>, clock: Clock)
      modifies this
      ensures routes == SetDriverStatus(old(routes), busId, status, alertMsg)
      ensures logs == DriverLogs(old(routes), old(logs), busId, status, alertMsg, clock)
      ensures students == old(students) && tickets == old(tickets)
    {
      var before := routes;
      routes := SetDriverStatus(routes, busId, status, alertMsg);
      logs := DriverLogs(before, logs, busId, status, alertMsg, clock);
    }
  }
}
