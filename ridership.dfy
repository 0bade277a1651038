/** The RFID ridership simulator: every 3.5 seconds one student who is not
    Absent/Unknown is picked; the scan either raises a wrong-bus alarm or
    toggles the student on or off the bus, and each scan pushes a log entry
    onto the capped event log. */
module Ridership {
  import opened Wrappers
  import opened Text
  import opened Seqs
  import opened Types
  import opened LogSink

  /** Probability threshold of the wrong-bus draw (`Math.random() < 0.05`). */
  const WrongBusChance: real := 0.05

  /** The decoy bus named in wrong-bus alarms. */
  const DecoyBus: string := "R-999"

  const DropOff: string := "School Drop-off"

  /** The `Math.random()` values of one ridership tick: the eligible-student pick,
      the wrong-bus draw and the boarding-stop draw. */
  datatype ScanDraw = ScanDraw(pick: Unit, wrongBusRoll: Unit, stopRoll: Unit)

  predicate IsEligible(s: Student) {
    s.status != Absent && s.status != Unknown
  }

  /** `currentStudents.filter(s => s.status !== ABSENT && s.status !== UNKNOWN)`. */
  function Eligible(students: seq<Student>): (r: seq<Student>)
    ensures forall s :: s in r <==> s in students && IsEligible(s)
    ensures IsSubsequence(r, students)
  {
    forall s ensures s in Filter(students, IsEligible) <==> s in students && IsEligible(s) {
      FilterMembership(students, IsEligible, s);
    }
    FilterIsSubsequence(students, IsEligible);
    Filter(students, IsEligible)
  }

  /** `Math.floor(Math.random() * 10) + 1`. */
  function StopNumber(u: Unit): (k: int)
    ensures 1 <= k <= 10
  {
    Pick(u, 10) + 1
  }

  function StopName(k: nat): string {
    "Stop #" + NatToString(k)
  }

  function WrongBusMessage(s: Student): string {
    "ALERT: " + s.name + " attempted to board WRONG BUS (" + DecoyBus + "). Driver Notified."
  }

  function DisembarkMessage(s: Student): string {
    s.name + " (" + s.id + ") disembarked Bus " + s.assignedBusId + " at " + DropOff
  }

  function BoardMessage(s: Student, stop: string): string {
    s.name + " (" + s.id + ") boarded Bus " + s.assignedBusId + " at " + stop
  }

  datatype Scan = Scan(student: Student, log: LogEntry)

  /** The scan of one selected student. */
  function ScanStudent(s: Student, d: ScanDraw, clock: Clock): (r: Scan)
    ensures r.log.id == StampId("L-", clock) && r.log.timestamp == clock.time24
    // Wrong-bus alarm: only for a student who is Off Bus; the record is untouched.
    ensures d.wrongBusRoll < WrongBusChance && s.status == OffBus ==>
              && r.student == s
              && r.log.kind == WrongBus && r.log.severity == Critical
              && Contains(r.log.message, DecoyBus) && Contains(r.log.message, s.name)
    // Otherwise a toggle: On Bus gets off at the school, anything else boards at a stop;
    // only status and the last-scan fields change.
    ensures !(d.wrongBusRoll < WrongBusChance && s.status == OffBus) ==>
              && r.log.severity == Info
              && r.student.lastScanTime == Some(clock.time24)
              && r.student == s.(status := r.student.status,
                                 lastScanTime := r.student.lastScanTime,
                                 lastScanLocation := r.student.lastScanLocation)
    ensures !(d.wrongBusRoll < WrongBusChance && s.status == OffBus) && s.status == OnBus ==>
              && r.student.status == OffBus
              && r.student.lastScanLocation == Some(DropOff)
              && r.log.kind == Disembarking
    ensures !(d.wrongBusRoll < WrongBusChance && s.status == OffBus) && s.status != OnBus ==>
              && r.student.status == OnBus
              && r.log.kind == Boarding
              && exists k :: 1 <= k <= 10 && r.student.lastScanLocation == Some(StopName(k))
  {
    var now := clock.time24;
    var id := StampId("L-", clock);
    if d.wrongBusRoll < WrongBusChance && s.status == OffBus then
      ContainsInfix("ALERT: " + s.name + " attempted to board WRONG BUS (", DecoyBus, "). Driver Notified.");
      ContainsInfix("ALERT: ", s.name, " attempted to board WRONG BUS (" + DecoyBus + "). Driver Notified.");
      assert WrongBusMessage(s) == "ALERT: " + s.name + " attempted to board WRONG BUS (" + DecoyBus + "). Driver Notified.";
      assert WrongBusMessage(s) == "ALERT: " + s.name + (" attempted to board WRONG BUS (" + DecoyBus + "). Driver Notified.");
      Scan(s, LogEntry(id, now, WrongBus, WrongBusMessage(s), Critical))
    else if s.status == OnBus then
      Scan(s.(status := OffBus, lastScanTime := Some(now), lastScanLocation := Some(DropOff)),
           LogEntry(id, now, Disembarking, DisembarkMessage(s), Info))
    else
      var k := StopNumber(d.stopRoll);
      var stop := StopName(k);
      Scan(s.(status := OnBus, lastScanTime := Some(now), lastScanLocation := Some(stop)),
           LogEntry(id, now, Boarding, BoardMessage(s, stop), Info))
  }

  /** `currentStudents.map(...)` for a chosen id: every student carrying that id is
      scanned, and each scan pushes its log onto the capped log, in list order. */
  function ScanMatching(students: seq<Student>, target: string, logs: seq<LogEntry>,
                        d: ScanDraw, clock: Clock): (seq<Student>, seq<LogEntry>)
    decreases |students|
  {
    if |students| == 0 then ([], logs)
    else
      var s := students[0];
      if s.id != target then
        var (rest, logs') := ScanMatching(students[1..], target, logs, d, clock);
        ([s] + rest, logs')
      else
        var scan := ScanStudent(s, d, clock);
        var (rest, logs') := ScanMatching(students[1..], target, Push(logs, scan.log), d, clock);
        ([scan.student] + rest, logs')
  }

  /** The id of the student the tick picks, when anyone is eligible. */
  function TargetId(students: seq<Student>, d: ScanDraw): (r: Option<string>)
    ensures r.None? <==> |Eligible(students)| == 0
    ensures r.Some? ==> exists i :: 0 <= i < |students| && students[i].id == r.value
                                    && IsEligible(students[i])
  {
    var active := Eligible(students);
    if |active| == 0 then None
    else
      var t := active[Pick(d.pick, |active|)];
      assert t in active;
      var i :| 0 <= i < |students| && students[i] == t;
      Some(t.id)
  }

  /** One ridership tick: the new student list and the new log. */
  function RidershipTick(students: seq<Student>, logs: seq<LogEntry>, d: ScanDraw,
                         clock: Clock): (seq<Student>, seq<LogEntry>) {
    match TargetId(students, d)
    case None => (students, logs)
    case Some(target) => ScanMatching(students, target, logs, d, clock)
  }

  // ---------------------------------------------------------------- properties

  /** Element-wise effect of scanning the students with a given id. */
  lemma {:induction false} ScanMatchingEffect(students: seq<Student>, target: string,
                                               logs: seq<LogEntry>, d: ScanDraw, clock: Clock)
    ensures |ScanMatching(students, target, logs, d, clock).0| == |students|
    ensures forall i :: 0 <= i < |students| ==>
              ScanMatching(students, target, logs, d, clock).0[i] ==
                if students[i].id == target then ScanStudent(students[i], d, clock).student
                else students[i]
    decreases |students|
  {
    if |students| > 0 {
      var s := students[0];
      var logs1 := if s.id != target then logs else Push(logs, ScanStudent(s, d, clock).log);
      ScanMatchingEffect(students[1..], target, logs1, d, clock);
    }
  }

  /** When some student carries the id, the new log is capped at 50 and starts
      with the log of the last such student's scan. */
  lemma {:induction false} ScanMatchingLogs(students: seq<Student>, target: string,
                                             logs: seq<LogEntry>, d: ScanDraw, clock: Clock, j: nat)
    requires j < |students| && students[j].id == target
    requires forall i :: j < i < |students| ==> students[i].id != target
    ensures 1 <= |ScanMatching(students, target, logs, d, clock).1| <= LogCap
    ensures ScanMatching(students, target, logs, d, clock).1[0] == ScanStudent(students[j], d, clock).log
    decreases |students|
  {
    var s := students[0];
    var logs1 := if s.id != target then logs else Push(logs, ScanStudent(s, d, clock).log);
    if j == 0 {
      NoMatchKeepsLogs(students[1..], target, logs1, d, clock);
    } else {
      ScanMatchingLogs(students[1..], target, logs1, d, clock, j - 1);
    }
  }

  lemma {:induction false} NoMatchKeepsLogs(students: seq<Student>, target: string,
                                             logs: seq<LogEntry>, d: ScanDraw, clock: Clock)
    requires forall i :: 0 <= i < |students| ==> students[i].id != target
    ensures ScanMatching(students, target, logs, d, clock) == (students, logs)
    decreases |students|
  {
    if |students| > 0 {
      NoMatchKeepsLogs(students[1..], target, logs, d, clock);
      assert [students[0]] + students[1..] == students;
    }
  }

  /** Nobody eligible: the tick changes nothing and logs nothing. */
  lemma NoEligibleNoOp(students: seq<Student>, logs: seq<LogEntry>, d: ScanDraw, clock: Clock)
    requires forall i :: 0 <= i < |students| ==> !IsEligible(students[i])
    ensures RidershipTick(students, logs, d, clock) == (students, logs)
  {
    FilterAll(students, IsEligible);
  }

  /** Someone eligible: exactly the students with the picked (eligible) student's id are
      scanned, the others are unchanged, and the log is capped at 50 with the newest scan first. */
  lemma RidershipTickEffect(students: seq<Student>, logs: seq<LogEntry>, d: ScanDraw, clock: Clock)
    requires |Eligible(students)| > 0
    ensures var (students', logs') := RidershipTick(students, logs, d, clock);
            && |students'| == |students|
            && 1 <= |logs'| <= LogCap
            && (exists j :: 0 <= j < |students| && Some(students[j].id) == TargetId(students, d)
                 && logs'[0] == ScanStudent(students[j], d, clock).log)
            && forall i :: 0 <= i < |students| ==>
                 students'[i] == if Some(students[i].id) == TargetId(students, d)
                                 then ScanStudent(students[i], d, clock).student else students[i]
  {
    var target := TargetId(students, d).value;
    ScanMatchingEffect(students, target, logs, d, clock);
    var j := LastWithId(students, target);
    ScanMatchingLogs(students, target, logs, d, clock, j);
  }

  /** The index of the last student carrying the id. */
  lemma LastWithId(students: seq<Student>, target: string) returns (j: nat)
    requires exists i :: 0 <= i < |students| && students[i].id == target && IsEligible(students[i])
    ensures j < |students| && students[j].id == target
    ensures forall i :: j < i < |students| ==> students[i].id != target
  {
    var i0 :| 0 <= i0 < |students| && students[i0].id == target && IsEligible(students[i0]);
    j := i0;
    var k := i0 + 1;
    while k < |students|
      invariant i0 <= j < k <= |students| && students[j].id == target
      invariant forall i :: j < i < k ==> students[i].id != target
    {
      if students[k].id == target { j := k; }
      k := k + 1;
    }
  }

  /** With ids unique, the tick replaces one student and pushes one log entry. */
  lemma RidershipTickUnique(students: seq<Student>, logs: seq<LogEntry>, d: ScanDraw,
                            clock: Clock, j: nat)
    requires j < |students| && Some(students[j].id) == TargetId(students, d)
    requires forall i :: 0 <= i < |students| && i != j ==> students[i].id != students[j].id
    ensures RidershipTick(students, logs, d, clock) ==
              (students[j := ScanStudent(students[j], d, clock).student],
               Push(logs, ScanStudent(students[j], d, clock).log))
  {
    var target := students[j].id;
    ScanMatchingEffect(students, target, logs, d, clock);
    var r := RidershipTick(students, logs, d, clock);
    assert r.0 == students[j := ScanStudent(students[j], d, clock).student];
    UniqueMatchLogs(students, target, logs, d, clock, j);
  }

  lemma {:induction false} UniqueMatchLogs(students: seq<Student>, target: string,
                                            logs: seq<LogEntry>, d: ScanDraw, clock: Clock, j: nat)
    requires j < |students| && students[j].id == target
    requires forall i :: 0 <= i < |students| && i != j ==> students[i].id != target
    ensures ScanMatching(students, target, logs, d, clock).1 == Push(logs, ScanStudent(students[j], d, clock).log)
    decreases |students|
  {
    if j == 0 {
      NoMatchKeepsLogs(students[1..], target, Push(logs, ScanStudent(students[0], d, clock).log), d, clock);
    } else {
      UniqueMatchLogs(students[1..], target, logs, d, clock, j - 1);
    }
  }

  /** Outside the wrong-bus branch, scans alternate: Off Bus -> On Bus -> Off Bus,
      and On Bus -> Off Bus -> On Bus. */
  lemma ToggleAlternates(s: Student, d1: ScanDraw, d2: ScanDraw, c1: Clock, c2: Clock)
    requires s.status == OffBus || s.status == OnBus
    requires d1.wrongBusRoll >= WrongBusChance && d2.wrongBusRoll >= WrongBusChance
    ensures ScanStudent(s, d1, c1).student.status != s.status
    ensures ScanStudent(ScanStudent(s, d1, c1).student, d2, c2).student.status == s.status
  {
  }

  /** The forced wrong-bus scenario: a single Off Bus student, wrong-bus draw forced. */
  lemma WrongBusScenario(s: Student, logs: seq<LogEntry>, d: ScanDraw, clock: Clock)
    requires s.id == "S1" && s.status == OffBus && d.wrongBusRoll < WrongBusChance
    ensures RidershipTick([s], logs, d, clock).0 == [s]
    ensures var logs' := RidershipTick([s], logs, d, clock).1;
            |logs'| == (if |logs| < LogCap then |logs| + 1 else LogCap)
            && logs'[0].kind == WrongBus && logs'[0].severity == Critical
            && logs'[1..] == logs[..|logs'| - 1]
  {
    assert Eligible([s]) == [s];
    RidershipTickUnique([s], logs, d, clock, 0);
  }
}
