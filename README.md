# smarterride.ai dashboard — a Dafny model

smarterride.ai is a React dashboard for school transport. It has a fleet map,
RFID ridership tracking, a maintenance shop, a quote calculator and device
setup. Its logic is a set of small state transforms inside components. This
project models them in Dafny and proves properties about them:

- **Store.** The dashboard's four collections are routes (buses), students,
  the event log and maintenance tickets. They are the fields of the class
  `Store.Dashboard`. Each timer tick and each handler is one method. Each
  method is specified by the pure update the handler passes to its state
  setter (modules `Fleet`, `Ridership`, `Handlers`, `LogSink`).
- **Fleet tick** (`Fleet`). A bus that is On Route or Delayed drifts by a
  clamped random step. A bus On Route without an alert may pick up one of five
  canned alerts and become Delayed. A bus in the shop is never touched.
- **Ridership tick** (`Ridership`). One student who is not Absent or Unknown
  is picked. The scan either raises a wrong-bus alarm or toggles the student
  on or off the bus. Each scan pushes a log entry onto the log, which is
  capped at 50 entries.
- **Handlers** (`Handlers`):
  - alert dismissal;
  - the mechanical-issue report, which opens a ticket and grounds the bus;
  - ticket replacement and resolution;
  - the driver's status report, whose log severity is classified from the
    message;
  - replace-by-id edits and append-imports.
- **Quote calculator** (`Pricing`) **and login routing** (`Login`). The calculator applies
  a tier table, a volume-discount ladder and a hardware add-on, all in integer
  cents. Counts are read with `parseInt(...) || 0`, modelled in `Text`.
  Login routing maps the login tab and district id to a role, and `handleLogin`
  turns that role into a session.
- **Scanner test bench and roster provisioning** (`Hardware`). The bench tells
  a scanner from a person by the mean gap between keystrokes. It is a class
  with a summing loop. Provisioning generates a batch of students in a loop
  and appends it to the store.
- **Live search** (`Search`). A query needs two characters. Matching is
  case-insensitive substring matching. At most three results are kept, in
  input order.
- **Route dialogs** (`RouteForms`). The event dialog builds a new route with
  defaults filled in. The edit dialog replaces exactly three fields.

What the model takes as inputs:

- **Clock.** `Date.now()` and the `toLocale*String` renderings are one
  `Types.Clock` value passed in.
- **Randomness.** Every `Math.random()` is a `Types.Unit` real in [0, 1)
  passed in. The code's own formulas are applied to it, so every threshold is
  visible: `floor(u * n)`, `(u - 0.5) * 2`, `u < 0.02`, `u < 0.05`.
- **Truthiness.** JavaScript truthiness of an optional string (`undefined`
  and `""` are falsy) is `Types.Truthy`.

Where the code and its comments differ, the model follows the code:

- The scanner threshold is 70 ms, although the comment says 60.
- Provisioning generates 5 to 19 students, although the comment says 5-20.

## Model

| member | source | states |
|---|---|---|
| `Store.Dashboard.constructor` | src/App.tsx:109-112 | the store starts from the four given collections |
| `Store.Dashboard.FleetTick` | src/App.tsx:153-178 | routes become the fleet tick of the old routes (one draw per bus); students, logs and tickets are unchanged |
| `Store.Dashboard.RidershipTick` | src/App.tsx:181-222 | students and log become the ridership tick of the old ones, in one step; with nobody eligible nothing changes; otherwise the student count is kept and the log has 1 to 50 entries; routes and tickets are unchanged |
| `Store.Dashboard.SaveRoute` | src/App.tsx:224-227 | routes are replaced by id; nothing else changes |
| `Store.Dashboard.DismissAlert` | src/App.tsx:229-238 | the bus's alert is cleared and one uncapped system/info log entry is prepended |
| `Store.Dashboard.ReportMechanicalIssue` | src/App.tsx:240-263 | the new ticket is prepended, the bus is sent to the shop, a warning log is prepended; "every open ticket's bus is in Maintenance" is preserved |
| `Store.Dashboard.UpdateTicket` | src/App.tsx:265-267 | tickets are replaced by id; nothing else changes |
| `Store.Dashboard.ResolveTicket` | src/App.tsx:269-278 | the bus returns to Idle, an info log is prepended, the ticket list is untouched |
| `Store.Dashboard.StudentUpdate` | src/App.tsx:280-283 | students are replaced by id; nothing else changes |
| `Store.Dashboard.StudentImport` | src/App.tsx:285-287 | the new students are appended after the old ones |
| `Store.Dashboard.FleetImport` | src/App.tsx:289-291 | the new routes are appended after the old ones |
| `Store.Dashboard.AddEvent` | src/App.tsx:293-295 | the event route is appended as the last route |
| `Store.Dashboard.UpdateDriverStatus` | src/App.tsx:309-328 | routes get the reported status and alert; the log entry is built from the routes as they were before the report, and pushed with the 50-entry cap |
| `Fleet.Delta` | src/App.tsx:160-161 | a random step lies in [-1, 1) |
| `Fleet.ClampToView` | src/App.tsx:163-164 | the result lies in [5, 95], equals v inside, and is 5 below and 95 above |
| `Fleet.MoveBus` | src/App.tsx:155-175 | a Maintenance bus is returned unchanged; only coordinates, alert and status change; a moving bus lands at clamp(old + delta) inside the viewport, within one unit per axis if it started there; a parked bus keeps its coordinates; the alert changes iff the bus is On Route without a truthy alert and the draw is below 0.02, and then it is a catalog alert and the bus is Delayed; a truthy alert is never overwritten |
| `Fleet.FleetTick` | src/App.tsx:155 | same length and order; bus i becomes MoveBus of bus i with draw i |
| `Fleet.FleetRun` | src/App.tsx:154-177 | repeated ticks keep the fleet's size |
| `Fleet.MovingBusesInView` | src/App.tsx:158-166 | after a tick every On Route or Delayed bus is inside [5, 95]² |
| `Fleet.MaintenanceBusStaysPut` | src/App.tsx:156 | a bus in Maintenance is unchanged after any number of ticks |
| `Fleet.FleetRunKeepsIdentity` | src/App.tsx:155-174 | ticks never change a bus's id, its bus number or whether it is in Maintenance |
| `Fleet.MovingBusStaysInView` | src/App.tsx:158-166 | a bus that starts inside the viewport stays inside it for any number of ticks |
| `Fleet.ForcedAlertScenario` | src/App.tsx:167-173 | an On Route bus with no alert and a forced draw becomes Delayed with a catalog alert |
| `Ridership.StopNumber` | src/App.tsx:210 | the boarding stop number lies in 1..10 |
| `Ridership.ScanStudent` | src/App.tsx:189-217 | the wrong-bus alarm fires only for an Off Bus student with a draw below 0.05: the record is untouched and the log is WRONG_BUS/critical naming R-999 and the student; otherwise On Bus becomes Off Bus at "School Drop-off" (DISEMBARKING) and any other status becomes On Bus at "Stop #k", 1 <= k <= 10 (BOARDING); the log is info; only status and the last-scan fields change |
| `Ridership.TargetId` | src/App.tsx:184-187 | there is no target iff nobody is eligible; a target is the id of an eligible student |
| `Ridership.Eligible` | src/App.tsx:184 | the eligible students are exactly those neither Absent nor Unknown, in list order |
| `Ridership.ScanMatching` | src/App.tsx:189-217 | the `map` over the students for a target id: each student with that id is scanned and pushes its log; ScanMatchingEffect and ScanMatchingLogs state the result |
| `Ridership.RidershipTick` | src/App.tsx:183-218 | the state updater of the 3.5-second interval; NoEligibleNoOp, RidershipTickEffect and RidershipTickUnique state the result |
| `Ridership.ScanMatchingEffect` | src/App.tsx:189-190 | exactly the students carrying the target id are scanned; the rest are unchanged |
| `Ridership.ScanMatchingLogs` | src/App.tsx:214-215 | the log has 1 to 50 entries and starts with the last scanned student's entry |
| `Ridership.NoMatchKeepsLogs` | src/App.tsx:190 | with no student carrying the id, students and log are unchanged |
| `Ridership.NoEligibleNoOp` | src/App.tsx:184-185 | with nobody outside Absent/Unknown the tick returns students and log unchanged |
| `Ridership.RidershipTickEffect` | src/App.tsx:183-218 | with someone eligible: same length, only students with the picked id change (each by ScanStudent), and the log has 1 to 50 entries with a scan of the picked id first |
| `Ridership.LastWithId` | src/App.tsx:189-215 | finds the last student carrying the id, whose log ends up first |
| `Ridership.RidershipTickUnique` | src/App.tsx:189-217 | with unique ids, the tick replaces the picked student and pushes exactly its log entry |
| `Ridership.UniqueMatchLogs` | src/App.tsx:215 | with one student carrying the id, the log is the capped push of its entry |
| `Ridership.ToggleAlternates` | src/App.tsx:203-212 | outside the wrong-bus branch two scans return an On Bus or Off Bus student to its status |
| `Ridership.WrongBusScenario` | src/App.tsx:199-202 | a forced wrong-bus scan leaves the student unchanged and pushes a critical WRONG_BUS entry, capped at 50 |
| `LogSink.Push` | src/App.tsx:215 | `[e, ...logs].slice(0, 50)`: length min(n + 1, 50), e first, then the newest old entries |
| `LogSink.PushAll` | src/App.tsx:189-215 | several capped pushes in a row: no entries leave the log as it is; otherwise it has 1 to 50 entries, the last one pushed first |
| `LogSink.Prepend` | src/App.tsx:237 | an uncapped prepend: e first, then all old entries |
| `LogSink.Reversed` | src/App.tsx:215 | the pushed entries, newest first; same length |
| `LogSink.PushAllTruncatesOnce` | src/App.tsx:215 | pushing several entries one by one equals one truncation of all of them, newest first, and is at most 50 |
| `LogSink.PushAtCapacity` | src/App.tsx:215 | at capacity a push drops the oldest entry and keeps 50 |
| `LogSink.Notifications` | src/App.tsx:597 | the notification list holds exactly the non-info entries, in log order, each as many times as in the log |
| `Handlers.SaveRoute` | src/App.tsx:225 | same length; the routes with the saved id become the saved route, the others are unchanged |
| `Handlers.UpdateTicket` | src/App.tsx:266 | same length; the tickets with the id are replaced, the others are unchanged |
| `Handlers.UpdateStudent` | src/App.tsx:281 | same length; the students with the id are replaced, the others are unchanged |
| `Handlers.SaveRouteNoOpAndIdempotent` | src/App.tsx:225 | an unmatched id is a no-op; saving twice is saving once |
| `Handlers.UpdateTicketNoOpAndIdempotent` | src/App.tsx:266 | an unmatched id is a no-op; updating twice is updating once |
| `Handlers.UpdateStudentNoOpAndIdempotent` | src/App.tsx:281 | an unmatched id is a no-op; updating twice is updating once |
| `Handlers.ClearAlert` | src/App.tsx:231-233 | the alert is gone; Delayed becomes On Route; every other status and field is kept |
| `Handlers.DismissAlert` | src/App.tsx:230-236 | only the dismissed bus id is cleared |
| `Handlers.DismissLog` | src/App.tsx:237 | a system/info entry with a time-derived "L-" id |
| `Handlers.DismissIdempotent` | src/App.tsx:229-236 | dismissing twice is dismissing once |
| `Handlers.NewTicket` | src/App.tsx:241-253 | an OPEN, MEDIUM, progress-0 ticket with no notes for the given bus, with a time-derived "M-" id |
| `Handlers.SendToShop` | src/App.tsx:255 | the reported bus goes to Maintenance with no alert; other buses are unchanged |
| `Handlers.ReportLog` | src/App.tsx:256-262 | a maintenance/warning entry whose message names the ticket id |
| `Handlers.ReturnToFleet` | src/App.tsx:270 | the resolved bus becomes Idle whatever its status; other buses are unchanged |
| `Handlers.ResolveLog` | src/App.tsx:271-277 | a system/info entry whose message names the ticket id |
| `Handlers.ReportKeepsGrounded` | src/App.tsx:254-255 | after a report every open ticket's bus, the new one's included, is in Maintenance |
| `Handlers.FleetTickKeepsGrounded` | src/App.tsx:156 | the fleet tick keeps every open ticket's bus in Maintenance |
| `Handlers.DismissKeepsGrounded` | src/App.tsx:230-236 | dismissing an alert keeps every open ticket's bus in Maintenance |
| `Handlers.ReportThenResolve` | src/App.tsx:269-278 | resolving leaves the ticket Open while the bus is Idle: grounding is broken until the ticket is updated too |
| `Handlers.SetDriverStatus` | src/App.tsx:310-315 | the reported bus gets the status and the alert as given (a present empty message included); other buses are unchanged |
| `Handlers.DriverLog` | src/App.tsx:318-325 | critical iff the message is truthy and contains "EMERGENCY"; warning iff truthy without it; info iff falsy; ALERT with the message or SYSTEM with the status text |
| `Handlers.DriverLogs` | src/App.tsx:317-327 | an unknown bus id adds no log; otherwise the first route with the id in the pre-update routes gives the entry, pushed with the 50 cap |
| `Types.AllBusStatusesExact` | src/services/finalDeploymentExplort.ts:257-263 | the five bus statuses, each once, with distinct display texts |
| `Types.Pick` | src/App.tsx:186 | `floor(u * n)` is an index below n |
| `Types.Truthy` | src/App.tsx:169 | JavaScript truthiness of an optional message: absent and empty are falsy (also used at src/App.tsx:322-324) |
| `Types.StampId` | src/App.tsx:214 | `${prefix}${Date.now()}`: the prefix followed by decimal digits only |
| `Pricing.DiscountPerBusCents` | src/components/MarketingLanding.tsx:198-203 | the discount is at most $5.00, and 0 exactly for at most 100 buses |
| `Pricing.BasePriceCents` | src/components/MarketingLanding.tsx:192-196 | the annual platform fee per tier: $3,000, $5,000, $10,000; TiersOrdered states their order |
| `Pricing.PerBusCents` | src/components/MarketingLanding.tsx:192-196 | the list price per bus per tier: $200, $400, $600; TiersOrdered states their order |
| `Pricing.DiscountMonotone` | src/components/MarketingLanding.tsx:198-203 | the discount never decreases with the bus count |
| `Pricing.DiscountThresholds` | src/components/MarketingLanding.tsx:198-203 | the thresholds 100/250/500/750/1000 are strict: $0, $2.50, $3.00, $3.50, $4.00, $5.00 |
| `Pricing.TiersOrdered` | src/components/MarketingLanding.tsx:192-196 | BASIC < PROFESSIONAL < ENTERPRISE, for the base fee and for the per-bus price |
| `Pricing.AdjustedPerBusFloor` | src/components/MarketingLanding.tsx:205 | the discounted per-bus price is at least $195 |
| `Pricing.PriceFor` | src/components/MarketingLanding.tsx:189-213 | discount from the ladder; total discount = buses × discount; hardware = legacy × $172.50; amount + total discount = base + buses × list price + hardware; with non-negative counts amount >= base + $195 × buses + hardware |
| `Pricing.SubmitQuote` | src/components/MarketingLanding.tsx:184-230 | counts read with `parseInt || 0`; a PENDING quote with the form's tier and fields, a "Q-" id and the date; amount, hardware cost (twice) and discount details all come from the same price |
| `Pricing.TypedCountsReadBack` | src/components/MarketingLanding.tsx:186-187 | counts typed as numbers, with or without blanks around them, are read back exactly |
| `Pricing.BlankCountsQuoteBase` | src/components/MarketingLanding.tsx:186-187 | blank or non-numeric counts are 0, and the quote is the bare base fee |
| `Pricing.NegativeBusCountAccepted` | src/components/MarketingLanding.tsx:186-208 | a negative bus count is not rejected and yields an amount below the base fee |
| `Login.LoginRoute` | src/components/MarketingLanding.tsx:241-257 | OFFICE gives ADMIN iff the trimmed, lower-cased id is admin/super/root/matt, else CLIENT with the chosen tier; DRIVER gives DRIVER, SHOP gives MAINTENANCE, ADMIN gives ADMIN |
| `Login.AdminIdAnyCasePadded` | src/components/MarketingLanding.tsx:243-244 | an admin id in any letter case and with white space around it opens the admin console |
| `Login.StartSession` | src/App.tsx:128-136 | the session has the requested role; the tier defaults to ENTERPRISE; every role but ADMIN is pinned to tenant TUSD-882 |
| `Login.LoginSessions` | src/App.tsx:128-136 | a client session has the chosen tier and the demo tenant; a login from any tab but OFFICE is ENTERPRISE |
| `Text.NatToString` | src/App.tsx:214 | `${n}`: non-empty decimal digits, with a leading zero only for 0 |
| `Text.ParseIntOrZero` | src/components/MarketingLanding.tsx:186 | `parseInt(x)` without a radix, NaN read as 0: leading white space, an optional sign, a `0x` prefix for hexadecimal, then the longest digit run; ParseIntOfNatToString, ParseIntOfNegated and ParseIntNoDigits state its values |
| `Text.ParseIntOfNatToString` | src/components/MarketingLanding.tsx:186 | `parseInt` inverts number formatting, with leading white space or a separating tail |
| `Text.ParseIntOfNegated` | src/components/MarketingLanding.tsx:186 | with a minus sign in front of the formatted number, `parseInt` reads its negation |
| `Text.ParseIntNoDigits` | src/components/MarketingLanding.tsx:186 | NaN cases (no digit after the sign) read as 0 |
| `Text.ParseIntNegative` | src/components/MarketingLanding.tsx:186 | "-n" reads as -n |
| `Text.TrimPadded` | src/components/MarketingLanding.tsx:243 | `trim` removes exactly the white space around a word |
| `Text.Trim` | src/components/MarketingLanding.tsx:243 | `trim`: a piece of the input with no white space at either end, the input itself when it has none |
| `Text.LowerIdempotent` | src/components/LiveSearch.tsx:37 | lower-casing twice is lower-casing once |
| `Text.Lower` | src/components/LiveSearch.tsx:37 | `toLowerCase` character by character: same length, ASCII capitals lowered, every other character kept |
| `Text.Contains` | src/components/LiveSearch.tsx:40-42 | `includes`: an occurrence of the needle at some index; never true for a needle longer than the haystack, always true for the empty needle |
| `Text.ContainsNeedlePrefix` | src/components/LiveSearch.tsx:40-42 | a string that contains a needle contains each prefix of it |
| `Hardware.GapSumTelescopes` | src/components/HardwareSetup.tsx:70-72 | the sum of consecutive gaps is last − first |
| `Hardware.GapSum` | src/components/HardwareSetup.tsx:69-72 | the sum of the gaps between consecutive key times; GapSumTelescopes gives its closed form |
| `Hardware.ClassifyMode` | src/components/HardwareSetup.tsx:67-76 | SCANNER when there are at least two key times and the mean gap is below 70 ms; ClassifyBySpan and UniformBursts characterise it |
| `Hardware.ClassifyBySpan` | src/components/HardwareSetup.tsx:67-76 | SCANNER iff at least 2 timestamps and last − first < 70·(n − 1) |
| `Hardware.UniformBursts` | src/components/HardwareSetup.tsx:73-75 | all gaps below 70 ms is a scanner; all gaps of 70 ms or more is a person |
| `Hardware.ScannerBench.constructor` | src/components/HardwareSetup.tsx:28-30 | an empty field, no last scan, no timestamps |
| `Hardware.ScannerBench.Change` | src/components/HardwareSetup.tsx:236 | the field takes the typed value; nothing else changes |
| `Hardware.ScannerBench.SumGaps` | src/components/HardwareSetup.tsx:69-72 | the loop's total equals the sum of the gaps |
| `Hardware.ScannerBench.ProcessInput` | src/components/HardwareSetup.tsx:65-87 | an empty field is a no-op; otherwise lastScan records the code and its classification, and the field and timestamps are cleared |
| `Hardware.ScannerBench.KeyDown` | src/components/HardwareSetup.tsx:56-63 | every key appends its time; Enter on a non-empty field records code and mode from the earlier timestamps and leaves no timestamps |
| `Hardware.ImportCount` | src/components/HardwareSetup.tsx:103 | a batch has 5 to 19 students |
| `Hardware.StudentNumber` | src/components/HardwareSetup.tsx:106 | the id number lies in 10000..99999 |
| `Hardware.GeneratedStudent` | src/components/HardwareSetup.tsx:107-116 | an Off Bus student on R-101 at Tucson High Magnet, grade 1..12, id "S-" + number, name "Student Imported i+1", tag "RF-k" with k < 9999 |
| `Hardware.ProvisioningPanel.constructor` | src/components/HardwareSetup.tsx:35-37 | not importing, no success, count 0 |
| `Hardware.ProvisioningPanel.Provision` | src/components/HardwareSetup.tsx:95-127 | the batch has ImportCount students, student i generated from draw i; importedCount equals the batch size |
| `Hardware.ProvisionIntoStore` | src/components/HardwareSetup.tsx:119-121 | the generated batch (student i from draw i), ImportCount of them, 5 to 19 Off Bus students on R-101, is appended to the store's students; the panel reports success with that count; routes, logs and tickets are unchanged |
| `Search.SearchResults` | src/components/LiveSearch.tsx:28-56 | a query under 2 characters gives nothing; at most 3 of each; results are subsequences of the inputs and match the lower-cased query; they are the FIRST matches (the matches of any prefix of the input, while at most 3, begin the list); a list that is not full holds every match |
| `Search.CaseInsensitive` | src/components/LiveSearch.tsx:37 | a query and its lower-case form give the same results |
| `Search.NarrowingQuery` | src/components/LiveSearch.tsx:39-49 | whatever matches a longer query matches its prefix |
| `Search.StudentMatches` | src/components/LiveSearch.tsx:39-42 | a student matches when its name, id or school contains the lower-cased query; NarrowingQuery relates two queries |
| `Search.RouteMatches` | src/components/LiveSearch.tsx:45-48 | a bus matches when its route name, bus number or driver contains the lower-cased query; NarrowingQuery relates two queries |
| `Seqs.FilterIsSubsequence` | src/components/LiveSearch.tsx:39 | a filter keeps input order |
| `Seqs.Filter` | src/components/LiveSearch.tsx:39 | `filter`: no longer than the input; every element kept is from the input and passes |
| `Seqs.Take` | src/components/LiveSearch.tsx:43 | `slice(0, n)`: the first min(n, length) elements |
| `Seqs.MapWhere` | src/App.tsx:225 | `map(x => hit(x) ? f(x) : x)`: same length; element i is f of it where hit, unchanged elsewhere |
| `Seqs.FilterMembership` | src/components/LiveSearch.tsx:39 | a filter keeps exactly the passing elements |
| `Seqs.FilterMultiset` | src/App.tsx:597 | a filter keeps each passing element as many times as it occurs and drops the others |
| `Seqs.TakeFilter` | src/components/LiveSearch.tsx:39-43 | `filter(...).slice(0, n)` is an order-preserving selection of passing elements; the passing elements of any prefix of the input, while at most n, begin it (the FIRST n); when short of n it holds every passing element |
| `Seqs.Find` | src/App.tsx:317 | `find` is none iff no element passes; otherwise it returns a passing element |
| `RouteForms.OrTbd` | src/components/CreateEventModal.tsx:24-25 | empty becomes "TBD"; any other value is kept |
| `RouteForms.NewEventRoute` | src/components/CreateEventModal.tsx:19-36 | an "E-" id; the name as typed; driver and bus number defaulted to TBD; Idle, capacity 50, occupancy 0, (50, 50), "10:00", Activity Bus; next stop and destination are the destination; kind and date come from the form |
| `RouteForms.EventRouteParked` | src/components/CreateEventModal.tsx:26 | a new event route is Idle, so the fleet tick neither moves it nor alerts it |
| `RouteForms.SubmitEvent` | src/components/CreateEventModal.tsx:37 | the new route is appended to the fleet |
| `RouteForms.InitialEditForm` | src/components/EditRouteModal.tsx:13-15 | the form starts from the route's name, driver and status |
| `RouteForms.ApplyEdit` | src/components/EditRouteModal.tsx:19 | name, driver and status take the form's values; restoring them gives back the original route |
| `RouteForms.UneditedSaveIsIdentity` | src/components/EditRouteModal.tsx:13-19 | submitting without edits returns the original route |
| `RouteForms.StatusChoicesComplete` | src/components/EditRouteModal.tsx:41 | every bus status is offered |
| `RouteForms.EditThenSave` | src/components/EditRouteModal.tsx:19 | saving an edit replaces exactly the routes with that id; with unique ids only that route |

## Left out

- Rendering: all JSX, navigation, modals, the notification dropdown and the RFID log list. The notification view is modelled only as its filter (`LogSink.Notifications`).
- Timers: `setInterval`, the 150 ms search debounce and the 1500 ms provisioning delay. Each tick or completion is one method call, with its draws and clock passed in.
- React scheduling: setter batching, updater functions run twice under StrictMode, and `onClose` after `onSave` (a UI flag). The ridership tick's nested `setLogs` is one atomic step.
- Persistence: localStorage for quotes and settings, the quote list `handleNewQuote` feeds, and the feature flags derived from the tier.
- External services: the Supabase client, the Gemini wrappers, the ZIP export, and the file-content templates under src/services. So is the hero demo animation, the CSV template download and the logo upload.
- Seed data: INITIAL_ROUTES and the other seed collections. The store's constructor takes them as parameters.
- Unique ids: ids derived from `Date.now()` are not unique, and the model assumes nothing about them.
- Ridership.ScanMatching: when several students share the picked id, the source draws fresh random values for each one. The model uses the same draw for all of them. The source also reads the clock (`new Date()`, `Date.now()`) once per matched student. The model uses one `Clock` for the whole tick, so all such scans share a time and a log id.
- Bus coordinates: the source adds JavaScript doubles (`coordinates.x + dx`) and clamps them. `Fleet.MoveBus` uses exact reals, so double rounding is not modelled.
- Floating point: money is exact integer cents. `parseInt` returns unbounded integers, where JavaScript loses precision above 2^53. The mean keystroke gap is an exact real quotient, so float rounding at the 70 ms boundary is not modelled.
- Text: `toLowerCase` is modelled on ASCII letters only. Lengths count Dafny characters, not UTF-16 code units.
- Hardware.ProvisioningPanel.Provision: it requires at least as many draws as students. The uploaded file is never read, in the source as in the model. The intermediate "importing" state is not observable in the model.
- Roles: the driver, parent and analytics views are stubs and are not modelled.
