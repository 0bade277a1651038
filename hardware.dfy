/** The hardware setup page: the scanner test bench, which tells an RFID/barcode
    wedge from a person typing by the mean gap between keystrokes, and the mock
    roster provisioning that turns an uploaded file into a batch of students. */
module Hardware {
  import opened Wrappers
  import opened Text
  import opened Types
  import Store

  // ---------------------------------------------------------------- scanner detection

  datatype ScanMode = Manual | Scanner

  datatype ScanRecord = ScanRecord(code: string, mode: ScanMode)

  /** Milliseconds: a mean gap below this is a scanner. */
  const ScannerGapMs: int := 70

  /** The sum of the gaps between consecutive timestamps. */
  function GapSum(times: seq<int>): int
    decreases |times|
  {
    if |times| <= 1 then 0
    else GapSum(times[..|times| - 1]) + (times[|times| - 1] - times[|times| - 2])
  }

  /** The classification as written: at least two timestamps and a mean gap below 70 ms. */
  function ClassifyMode(times: seq<int>): ScanMode {
    if |times| > 1 && (GapSum(times) as real) / ((|times| - 1) as real) < ScannerGapMs as real
    then Scanner else Manual
  }

  /** The gaps telescope: their sum is the last timestamp minus the first. */
  lemma {:induction false} GapSumTelescopes(times: seq<int>)
    requires |times| >= 1
    ensures GapSum(times) == times[|times| - 1] - times[0]
    decreases |times|
  {
    if |times| > 1 {
      var init := times[..|times| - 1];
      GapSumTelescopes(init);
      assert init[|init| - 1] == times[|times| - 2] && init[0] == times[0];
    }
  }

  /** So the mean-gap test is a test on the span of the burst. */
  lemma ClassifyBySpan(times: seq<int>)
    ensures ClassifyMode(times) == Scanner <==>
              |times| >= 2 && times[|times| - 1] - times[0] < ScannerGapMs * (|times| - 1)
  {
    if |times| >= 2 {
      GapSumTelescopes(times);
      var n := (|times| - 1) as real;
      var total := GapSum(times) as real;
      assert total / n < ScannerGapMs as real <==> total < ScannerGapMs as real * n;
    }
  }

  /** Keystrokes that all come less than 70 ms apart are a scanner; keystrokes
      that all come at least 70 ms apart are a person. */
  lemma {:induction false} UniformBursts(times: seq<int>)
    requires |times| >= 2
    ensures (forall i :: 1 <= i < |times| ==> times[i] - times[i - 1] < ScannerGapMs) ==>
              ClassifyMode(times) == Scanner
    ensures (forall i :: 1 <= i < |times| ==> times[i] - times[i - 1] >= ScannerGapMs) ==>
              ClassifyMode(times) == Manual
  {
    GapBounds(times);
    ClassifyBySpan(times);
    GapSumTelescopes(times);
  }

  lemma {:induction false} GapBounds(times: seq<int>)
    requires |times| >= 1
    ensures (forall i :: 1 <= i < |times| ==> times[i] - times[i - 1] < ScannerGapMs) ==>
              GapSum(times) < ScannerGapMs * (|times| - 1) || |times| == 1
    ensures (forall i :: 1 <= i < |times| ==> times[i] - times[i - 1] >= ScannerGapMs) ==>
              GapSum(times) >= ScannerGapMs * (|times| - 1)
    decreases |times|
  {
    if |times| > 1 {
      var init := times[..|times| - 1];
      GapBounds(init);
      assert forall i :: 1 <= i < |init| ==> init[i] - init[i - 1] == times[i] - times[i - 1];
    }
  }

  /** The scanner test bench: the text field, the last classified scan, and the
      key timestamps collected since the last scan. */
  class ScannerBench {
    var scanInput: string
    var lastScan: Option<ScanRecord>
    var keyTimes: seq<int>

    constructor ()
      ensures scanInput == "" && lastScan == None && keyTimes == []
    {
      scanInput, lastScan, keyTimes := "", None, [];
    }

    /** The field's `onChange`. */
    method Change(value: string)
      modifies this
      ensures scanInput == value && lastScan == old(lastScan) && keyTimes == old(keyTimes)
    {
      scanInput := value;
    }

    /** The summing loop of `processInput`. */
    static method SumGaps(times: seq<int>) returns (total: int)
      ensures total == GapSum(times)
    {
      total := 0;
      if |times| <= 1 {
        return;
      }
      var i := 1;
      while i < |times|
        invariant 1 <= i <= |times|
        invariant total == GapSum(times[..i])
      {
        assert times[..i + 1][..i] == times[..i];
        total := total + (times[i] - times[i - 1]);
        i := i + 1;
      }
      assert times[..|times|] == times;
    }

    /** `processInput`, reading the timestamps the keydown handler saw. An empty
        field is a no-op; otherwise the scan is classified and the bench cleared. */
    method ProcessInput(seenTimes: seq<int>)
      modifies this
      ensures old(scanInput) == "" ==>
                scanInput == old(scanInput) && lastScan == old(lastScan) && keyTimes == old(keyTimes)
      ensures old(scanInput) != "" ==>
                && lastScan == Some(ScanRecord(old(scanInput), ClassifyMode(seenTimes)))
                && scanInput == "" && keyTimes == []
    {
      if |scanInput| == 0 {
        return;
      }
      var isScanner := false;
      if |seenTimes| > 1 {
        var totalDiff := SumGaps(seenTimes);
        var avgSpeed := (totalDiff as real) / ((|seenTimes| - 1) as real);
        if avgSpeed < ScannerGapMs as real {
          isScanner := true;
        }
      }
      lastScan := Some(ScanRecord(scanInput, if isScanner then Scanner else Manual));
      scanInput := "";
      keyTimes := [];
    }

    /** `handleKeyDown`: the timestamp append is queued before `processInput`
        runs, and `processInput` sees the timestamps from before this key, so
        the Enter key's own time is not classified and a completed scan leaves
        no timestamps behind. */
    method KeyDown(key: string, now: int)
      modifies this
      ensures key != "Enter" || old(scanInput) == "" ==>
                && keyTimes == old(keyTimes) + [now]
                && scanInput == old(scanInput) && lastScan == old(lastScan)
      ensures key == "Enter" && old(scanInput) != "" ==>
                && lastScan == Some(ScanRecord(old(scanInput), ClassifyMode(old(keyTimes))))
                && scanInput == "" && keyTimes == []
    {
      var seen := keyTimes;
      keyTimes := keyTimes + [now];
      if key == "Enter" {
        ProcessInput(seen);
      }
    }
  }

  // ---------------------------------------------------------------- provisioning

  /** The `Math.random()` values one generated student consumes, in call order. */
  datatype StudentDraw = StudentDraw(idRoll: Unit, gradeRoll: Unit, rfidRoll: Unit)

  const ImportSchool := "Tucson High Magnet"
  const ImportBus := "R-101"

  /** `Math.floor(Math.random() * 15) + 5`. */
  function ImportCount(u: Unit): (n: nat)
    ensures 5 <= n <= 19
  {
    Pick(u, 15) + 5
  }

  /** The numeric part of a generated student id. */
  function StudentNumber(u: Unit): (k: nat)
    ensures 10000 <= k <= 99999
  {
    Pick(u, 90000) + 10000
  }

  /** The `i`-th student of a batch. */
  function GeneratedStudent(i: nat, d: StudentDraw): (s: Student)
    ensures s.status == OffBus && s.assignedBusId == ImportBus && s.school == ImportSchool
    ensures 1 <= s.grade <= 12
    ensures s.id == "S-" + NatToString(StudentNumber(d.idRoll))
    ensures s.name == "Student Imported " + NatToString(i + 1)
    ensures exists k :: 0 <= k < 9999 && s.rfidTag == "RF-" + NatToString(k)
    ensures s.photoUrl == None && s.lastScanTime == None && s.lastScanLocation == None
  {
    var tag := Pick(d.rfidRoll, 9999);
    Student("S-" + NatToString(StudentNumber(d.idRoll)), "Student Imported " + NatToString(i + 1),
            Pick(d.gradeRoll, 12) + 1, ImportSchool, "RF-" + NatToString(tag),
            OffBus, None, None, ImportBus, None)
  }

  /** The provisioning panel's state. */
  class ProvisioningPanel {
    var isImporting: bool
    var importSuccess: bool
    var importedCount: int

    constructor ()
      ensures !isImporting && !importSuccess && importedCount == 0
    {
      isImporting, importSuccess, importedCount := false, false, 0;
    }

    /** `processProvisioningFile` once its delay has elapsed: generates the
        batch (the file's contents are not read) and reports its size. */
    method Provision(countRoll: Unit, draws: seq<StudentDraw>) returns (batch: seq<Student>)
      requires |draws| >= ImportCount(countRoll)
      modifies this
      ensures |batch| == ImportCount(countRoll)
      ensures forall i :: 0 <= i < |batch| ==> batch[i] == GeneratedStudent(i, draws[i])
      ensures importedCount == |batch| && importSuccess && !isImporting
    {
      isImporting, importSuccess := true, false;
      var count := ImportCount(countRoll);
      batch := [];
      var i := 0;
      while i < count
        invariant 0 <= i <= count
        invariant |batch| == i
        invariant forall j :: 0 <= j < i ==> batch[j] == GeneratedStudent(j, draws[j])
      {
        batch := batch + [GeneratedStudent(i, draws[i])];
        i := i + 1;
      }
      isImporting := false;
      importedCount := count;
      importSuccess := true;
    }
  }

  /** The batch goes to the dashboard through `onImportStudents`, which appends it. */
  method ProvisionIntoStore(panel: ProvisioningPanel, store: Store.Dashboard, countRoll: Unit,
                            draws: seq<StudentDraw>)
    requires |draws| >= ImportCount(countRoll)
    modifies panel, store
    ensures panel.importedCount == ImportCount(countRoll) && 5 <= panel.importedCount <= 19
    ensures panel.importSuccess && !panel.isImporting
    ensures |store.students| == |old(store.students)| + panel.importedCount
    ensures store.students[..|old(store.students)|] == old(store.students)
    // The appended students are the generated batch, in order.
    ensures forall i :: 0 <= i < panel.importedCount ==>
              store.students[|old(store.students)| + i] == GeneratedStudent(i, draws[i])
    ensures forall i :: |old(store.students)| <= i < |store.students| ==>
              store.students[i].status == OffBus && store.students[i].assignedBusId == ImportBus
    ensures store.routes == old(store.routes) && store.logs == old(store.logs)
    ensures store.tickets == old(store.tickets)
  {
    var batch := panel.Provision(countRoll, draws);
    store.StudentImport(batch);
  }
}
