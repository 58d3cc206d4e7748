/** The kiosk (face-scan-page.tsx): the attendance classification of a scan,
    the record and the admin notification a successful scan produces, and
    the kiosk's state as `startScanning`, `resetScan` and the `update-action`
    listener change it. The camera, face detection, recognition and the
    clock are inputs. */
module FaceScan {
  import opened Domain
  import opened Text
  import Protocol

  /** `Number.parseInt` of a string that starts with digits; `None` stands for
      `NaN` (no leading digit, or a missing part). */
  function ParseLeadingInt(s: string): (r: Option<int>)
    ensures r.Some? <==> |s| > 0 && IsDigit(s[0])
    ensures r.Some? ==> r.value >= 0
  {
    var d := LeadingDigits(s);
    if |d| == 0 then None else Some(ParseDecimal(d))
  }

  /** An "HH:MM" time in minutes, `hours * 60 + minutes`, or `None` (`NaN`)
      when either side does not start with a digit. */
  function ClockMinutes(s: string): (r: Option<int>)
    ensures r.Some? ==> r.value >= 0 && ':' in s
    ensures |s| == 0 || !IsDigit(s[0]) ==> r.None?
  {
    var parts := Split(s, ':');
    assert |parts| >= 2 ==> s == parts[0] + [':'] + Join(parts[1..], ':') && s[|parts[0]|] == ':';
    assert |parts[0]| > 0 ==> s[0] == parts[0][0];
    var h := ParseLeadingInt(parts[0]);
    var m := if |parts| >= 2 then ParseLeadingInt(parts[1]) else None;
    if h.Some? && m.Some? then Some(h.value * 60 + m.value) else None
  }

  /** A two-digit "HH:MM" rendering, as `toTimeString().slice(0, 5)` and the
      schedule fields write times. */
  function FormatClock(h: nat, m: nat): string
  {
    PadStart(Decimal(h), 2, '0') + ":" + PadStart(Decimal(m), 2, '0')
  }

  /** Reading a formatted time back gives `h * 60 + m`. */
  lemma ClockRoundTrip(h: nat, m: nat)
    ensures ClockMinutes(FormatClock(h, m)) == Some(h * 60 + m)
  {
    var a := PadStart(Decimal(h), 2, '0');
    var b := PadStart(Decimal(m), 2, '0');
    assert ':' !in a && ParseLeadingInt(a) == Some(h) by { PaddedFieldReadsBack(h); }
    assert ':' !in b && ParseLeadingInt(b) == Some(m) by { PaddedFieldReadsBack(m); }
    var s := FormatClock(h, m);
    assert s == a + [':'] + b;
    TwoFieldClock(s, a, b, h, m);
  }

  /** Two fields around one ':' that both start with digits read as hours
      and minutes. */
  lemma TwoFieldClock(s: string, a: string, b: string, h: int, m: int)
    requires s == a + [':'] + b
    requires ':' !in a && ':' !in b && ParseLeadingInt(a) == Some(h) && ParseLeadingInt(b) == Some(m)
    ensures ClockMinutes(s) == Some(h * 60 + m)
  {
    SplitTwo(a, ':', b);
    ClockMinutesOfFields(s, a, b);
  }

  /** A time with exactly two fields is read field by field. */
  lemma ClockMinutesOfFields(s: string, a: string, b: string)
    requires Split(s, ':') == [a, b]
    ensures ParseLeadingInt(a).Some? && ParseLeadingInt(b).Some? ==>
      ClockMinutes(s) == Some(ParseLeadingInt(a).value * 60 + ParseLeadingInt(b).value)
  {
  }

  /** A zero-padded field is all digits, contains no ':' and parses back. */
  lemma PaddedFieldReadsBack(n: nat)
    ensures ':' !in PadStart(Decimal(n), 2, '0')
    ensures ParseLeadingInt(PadStart(Decimal(n), 2, '0')) == Some(n)
  {
    var a := PadStart(Decimal(n), 2, '0');
    ParsePadded(Decimal(n), 2);
    ParseDecimalOfDecimal(n);
    LeadingDigitsOfDigits(a);
    assert !IsDigit(':');
  }

  /** `parseInt` of a non-empty digit string is its value. */
  lemma ParseLeadingDigits(d: string)
    requires |d| > 0 && AllDigits(d)
    ensures ParseLeadingInt(d) == Some(ParseDecimal(d))
  {
    LeadingDigitsOfDigits(d);
  }

  /** A field of digits holds no ':' and reads as its decimal value. */
  lemma DigitField(f: string, v: nat)
    requires |f| > 0 && AllDigits(f) && ParseDecimal(f) == v
    ensures ':' !in f && ParseLeadingInt(f) == Some(v)
  {
    DigitsExclude(f, ':');
    ParseLeadingDigits(f);
  }

  /** The default schedule starts at minute 540 ... */
  lemma DefaultStartClock(s: string)
    requires s == "09:00"
    ensures ClockMinutes(s) == Some(540)
  {
    assert s == "09" + [':'] + "00";
    DigitField("09", 9);
    DigitField("00", 0);
    TwoFieldClock(s, "09", "00", 9, 0);
  }

  /** ... and ends at minute 1080. */
  lemma DefaultEndClock(s: string)
    requires s == "18:00"
    ensures ClockMinutes(s) == Some(1080)
  {
    assert s == "18" + [':'] + "00";
    DigitField("18", 18);
    DigitField("00", 0);
    TwoFieldClock(s, "18", "00", 18, 0);
  }

  /** `o + k`, where `NaN + k` is `NaN`. */
  function Shift(o: Option<int>, k: int): Option<int>
  {
    match o
    case None => None
    case Some(v) => Some(v + k)
  }

  /** JavaScript's `a < b` on numbers that may be `NaN`: false when either is. */
  predicate Below(a: Option<int>, b: Option<int>)
  {
    a.Some? && b.Some? && a.value < b.value
  }

  datatype ScanStatus = NonWorkingDay | Early | Late | Overtime | OnTime
  {
    /** The `status` string. */
    function Name(): string
    {
      match this
      case NonWorkingDay => "non-working-day"
      case Early => "early"
      case Late => "late"
      case Overtime => "overtime"
      case OnTime => "on-time"
    }
  }

  datatype StatusResult = StatusResult(status: ScanStatus, message: string)

  /** `employee.workingHours || {09:00–18:00, 60 minutes, Monday to Friday}`. */
  function HoursOf(hours: Option<WorkingHours>): (wh: WorkingHours)
    ensures hours.None? ==> wh == DefaultHours
    ensures hours.Some? ==> wh == hours.value
  {
    match hours
    case None => DefaultHours
    case Some(h) => h
  }

  /** `checkAttendanceStatus`: not a working day first, whatever the time;
      then early (more than 30 minutes before the start), late (more than
      15 minutes after it), overtime (more than 30 minutes after the end),
      on time otherwise. */
  function CheckAttendanceStatus(hours: Option<WorkingHours>, weekday: string, now: string): (r: StatusResult)
    ensures r.status == NonWorkingDay <==> weekday !in HoursOf(hours).workDays
    ensures r.status == NonWorkingDay ==> r.message == "Today is not a working day for this employee"
    ensures r.status == Early ==> r.message == "Early arrival - work starts at " + HoursOf(hours).startTime
    ensures r.status == ScanStatus.Late ==> r.message == "Late arrival - work started at " + HoursOf(hours).startTime
    ensures r.status == Overtime ==> r.message == "Working overtime - work ends at " + HoursOf(hours).endTime
    ensures r.status == OnTime ==> r.message == "On time"
    ensures weekday in HoursOf(hours).workDays ==>
      var cur := ClockMinutes(now);
      var start := ClockMinutes(HoursOf(hours).startTime);
      var end := ClockMinutes(HoursOf(hours).endTime);
      cur.Some? && start.Some? && end.Some? ==>
        var c, s, e := cur.value, start.value, end.value;
        && (r.status == Early <==> c < s - 30)
        && (r.status == ScanStatus.Late <==> s - 30 <= c && c > s + 15)
        && (r.status == Overtime <==> s - 30 <= c <= s + 15 && c > e + 30)
        && (r.status == OnTime <==> s - 30 <= c <= s + 15 && c <= e + 30)
  {
    var wh := HoursOf(hours);
    if weekday !in wh.workDays then
      StatusResult(NonWorkingDay, "Today is not a working day for this employee")
    else
      var cur := ClockMinutes(now);
      var start := ClockMinutes(wh.startTime);
      var end := ClockMinutes(wh.endTime);
      if Below(cur, Shift(start, -30)) then
        StatusResult(Early, "Early arrival - work starts at " + wh.startTime)
      else if Below(Shift(start, 15), cur) then
        StatusResult(ScanStatus.Late, "Late arrival - work started at " + wh.startTime)
      else if Below(Shift(end, 30), cur) then
        StatusResult(Overtime, "Working overtime - work ends at " + wh.endTime)
      else
        StatusResult(OnTime, "On time")
  }

  /** The branch order makes overtime unreachable for any schedule that ends
      no earlier than 15 minutes before it starts: an overtime scan would
      have to be both at most 15 minutes after the start and more than 30
      after the end. */
  lemma OvertimeUnreachable(hours: Option<WorkingHours>, weekday: string, now: string)
    requires ClockMinutes(HoursOf(hours).startTime).Some? && ClockMinutes(HoursOf(hours).endTime).Some?
    requires ClockMinutes(HoursOf(hours).endTime).value >= ClockMinutes(HoursOf(hours).startTime).value - 15
    ensures CheckAttendanceStatus(hours, weekday, now).status != Overtime
  {
  }

  /** With the default schedule on a weekday: before 08:30 is early, after
      09:15 is late, and everything in between is on time; overtime never
      happens. */
  lemma DefaultScheduleBands(weekday: string, now: string)
    requires weekday in Weekdays && ClockMinutes(now).Some?
    ensures var c, st := ClockMinutes(now).value, CheckAttendanceStatus(None, weekday, now).status;
      && (st == Early <==> c < 510)
      && (st == ScanStatus.Late <==> c > 555)
      && (st == OnTime <==> 510 <= c <= 555)
      && st != Overtime && st != NonWorkingDay
  {
    DefaultStartClock(DefaultHours.startTime);
    DefaultEndClock(DefaultHours.endTime);
  }

  /** A malformed (`NaN`) start time or clock never yields early or late:
      every comparison against it is false. */
  lemma MalformedStartNeverEarlyOrLate(hours: Option<WorkingHours>, weekday: string, now: string)
    requires ClockMinutes(HoursOf(hours).startTime).None? || ClockMinutes(now).None?
    ensures CheckAttendanceStatus(hours, weekday, now).status !in {Early, ScanStatus.Late}
  {
  }

  /** The admin notification for a late, early or overtime scan (its
      `Date.now()` identifier and timestamp are not modelled). */
  datatype Notification = Notification(
    kind: ScanStatus,
    title: string,
    message: string,
    employeeName: string,
    employeeId: string,
    read: bool,
    actionRequired: bool)

  /** The status with its first letter upper-cased, then " Alert". */
  function AlertTitle(st: ScanStatus): (r: string)
    ensures |r| == |st.Name()| + 6 && r[|r| - 6..] == " Alert"
    ensures r[0] == Upper(st.Name()[0]) && r[1..|st.Name()|] == st.Name()[1..]
  {
    Capitalize(st.Name()) + " Alert"
  }

  lemma AlertTitles()
    ensures AlertTitle(ScanStatus.Late) == "Late Alert"
    ensures AlertTitle(Early) == "Early Alert"
    ensures AlertTitle(Overtime) == "Overtime Alert"
  {
    LateTitle();
    EarlyTitle();
    OvertimeTitle();
  }

  lemma LateTitle()
    ensures AlertTitle(ScanStatus.Late) == "Late Alert"
  {
    assert Capitalize("late") == "Late" by { assert Upper('l') == 'L'; }
  }

  lemma EarlyTitle()
    ensures AlertTitle(Early) == "Early Alert"
  {
    assert Capitalize("early") == "Early" by { assert Upper('e') == 'E'; }
  }

  lemma OvertimeTitle()
    ensures AlertTitle(Overtime) == "Overtime Alert"
  {
    assert Capitalize("overtime") == "Overtime" by { assert Upper('o') == 'O'; }
  }

  function NotificationFor(e: Employee, s: StatusResult): (r: Option<Notification>)
    ensures r.Some? <==> s.status in {ScanStatus.Late, Early, Overtime}
    ensures r.Some? ==> r.value.kind == s.status && (r.value.actionRequired <==> s.status == Overtime)
    ensures r.Some? ==> r.value.title == AlertTitle(s.status) && r.value.message == e.name + " - " + s.message
    ensures r.Some? ==> r.value.employeeName == e.name && r.value.employeeId == e.id && !r.value.read
  {
    if s.status == ScanStatus.Late || s.status == Early || s.status == Overtime then
      Some(Notification(s.status, AlertTitle(s.status), e.name + " - " + s.message, e.name, e.id, false, s.status == Overtime))
    else
      None
  }

  datatype Action = CheckIn | CheckOut

  /** `isCurrentlyCheckedIn ? "check-out" : "check-in"`. */
  function ActionFor(wasCheckedIn: bool): Action
  {
    if wasCheckedIn then CheckOut else CheckIn
  }

  /** The record the kiosk stores: the attendance fields together with the
      employee's own schedule and the classification. */
  datatype StoredRecord = StoredRecord(record: AttendanceRecord, workingHours: Option<WorkingHours>, attendanceStatus: StatusResult)

  function MakeRecord(e: Employee, s: StatusResult, action: Action, stamp: string, date: string, time: string): (r: StoredRecord)
    ensures r.record.id == "ATT" + stamp && r.record.employeeId == e.id && r.record.employeeName == e.name
    ensures r.record.date == date && r.workingHours == e.workingHours && r.attendanceStatus == s
    ensures r.record.status == (if s.status == ScanStatus.Late then RecordStatus.Late else Present)
    ensures time != "-" ==> (r.record.checkIn == "-" <==> r.record.checkOut != "-")
    ensures action == CheckOut ==> r.record.checkOut == time && r.record.totalHours == "8h 00m"
    ensures action == CheckIn ==> r.record.checkIn == time && r.record.totalHours == "-"
  {
    var out := action == CheckOut;
    StoredRecord(
      AttendanceRecord(
        "ATT" + stamp, e.id, e.name, date,
        if out then "-" else time,
        if out then time else "-",
        if s.status == ScanStatus.Late then RecordStatus.Late else Present,
        if out then "8h 00m" else "-"),
      e.workingHours, s)
  }

  /** `recognizeFace`: nobody on an empty roster; otherwise, when recognition
      succeeds, the employee at the drawn position (`pick` stands for
      `Math.random`, reduced to the roster's range). */
  function Recognize(roster: seq<Employee>, success: bool, pick: nat): (r: Option<Employee>)
    ensures r.Some? <==> |roster| > 0 && success
    ensures r.Some? ==> r.value in roster
  {
    if |roster| == 0 then None
    else if success then Some(roster[pick % |roster|])
    else None
  }

  /** Everything a scan depends on that comes from outside the page: camera
      permission, the frame grab, face detection, recognition and the
      check-in choice, the clock and the record's identifier. */
  datatype ScanInputs = ScanInputs(
    cameraGranted: bool,
    frameCaptured: bool,
    faceDetected: bool,
    recognized: bool,
    pick: nat,
    wasCheckedIn: bool,
    weekday: string,
    now: string,
    date: string,
    localTime: string,
    stamp: string)

  /** The employee a scan ends with: none when the frame grab fails, no face
      is detected or recognition fails. */
  function Recognized(roster: seq<Employee>, inputs: ScanInputs): (r: Option<Employee>)
    ensures r.Some? <==> inputs.frameCaptured && inputs.faceDetected && inputs.recognized && |roster| > 0
    ensures r.Some? ==> r.value in roster
  {
    if !inputs.frameCaptured || !inputs.faceDetected then None
    else Recognize(roster, inputs.recognized, inputs.pick)
  }

  datatype ScanResult =
    | Failed
    | Succeeded(employee: Employee, action: Action, time: string, attendanceStatus: StatusResult)

  function ResultFor(who: Option<Employee>, inputs: ScanInputs): (r: ScanResult)
    ensures r.Succeeded? <==> who.Some?
    ensures r.Succeeded? ==> r.employee == who.value && r.time == inputs.localTime
    ensures r.Succeeded? ==> (r.action == CheckOut <==> inputs.wasCheckedIn)
    ensures r.Succeeded? ==> r.attendanceStatus == CheckAttendanceStatus(who.value.workingHours, inputs.weekday, inputs.now)
  {
    match who
    case None => Failed
    case Some(e) =>
      Succeeded(e, ActionFor(inputs.wasCheckedIn), inputs.localTime,
                CheckAttendanceStatus(e.workingHours, inputs.weekday, inputs.now))
  }

  /** What a scan appends to the stored records. */
  function RecordsFor(who: Option<Employee>, inputs: ScanInputs): (r: seq<StoredRecord>)
    ensures |r| == if who.Some? then 1 else 0
  {
    match who
    case None => []
    case Some(e) =>
      [MakeRecord(e, CheckAttendanceStatus(e.workingHours, inputs.weekday, inputs.now),
                  ActionFor(inputs.wasCheckedIn), inputs.stamp, inputs.date, inputs.localTime)]
  }

  /** What a scan raises for the admin. */
  function NotificationsFor(who: Option<Employee>, inputs: ScanInputs): (r: seq<Notification>)
    ensures |r| <= 1
    ensures who.None? ==> r == []
    ensures who.Some? ==>
      var n := NotificationFor(who.value, CheckAttendanceStatus(who.value.workingHours, inputs.weekday, inputs.now));
      (r == [] <==> n.None?) && (n.Some? ==> r == [n.value])
  {
    match who
    case None => []
    case Some(e) =>
      match NotificationFor(e, CheckAttendanceStatus(e.workingHours, inputs.weekday, inputs.now))
      case None => []
      case Some(n) => [n]
  }

  /** A scan's record, result and notification agree: the record belongs to
      the recognized employee, is late exactly when the result is, and a
      notification accompanies it exactly when the classification is late,
      early or overtime. */
  lemma ScanOutputsAgree(roster: seq<Employee>, inputs: ScanInputs)
    requires Recognized(roster, inputs).Some?
    ensures var e := Recognized(roster, inputs).value;
      var res := ResultFor(Recognized(roster, inputs), inputs);
      var rec := RecordsFor(Recognized(roster, inputs), inputs)[0].record;
      && res.Succeeded? && res.employee == e && e in roster
      && rec.employeeId == e.id
      && (rec.status == RecordStatus.Late <==> res.attendanceStatus.status == ScanStatus.Late)
      && (|NotificationsFor(Recognized(roster, inputs), inputs)| == 1 <==>
            res.attendanceStatus.status in {ScanStatus.Late, Early, Overtime})
  {
  }

  const CameraErrorText: string := "Unable to access camera. Please ensure camera permissions are granted."
  const NoEmployeesText: string := "No employees enrolled. Please add employees through the admin panel first."

  /** The kiosk page. `storedRecords` is the `attendanceRecords` list kept in
      local storage; `notifications` lists the `newNotification` events
      dispatched. */
  class Kiosk {
    var isCameraActive: bool
    var isScanning: bool
    var cameraError: Option<string>
    var scanResult: Option<ScanResult>
    var employees: seq<Employee>
    var storedRecords: seq<StoredRecord>
    var notifications: seq<Notification>

    /** The page on mount, with the roster and records found in storage. */
    constructor (stored: seq<Employee>, records: seq<StoredRecord>)
      ensures !isCameraActive && !isScanning && cameraError == None && scanResult == None
      ensures employees == stored && storedRecords == records && notifications == []
    {
      isCameraActive := false;
      isScanning := false;
      cameraError := None;
      scanResult := None;
      employees := stored;
      storedRecords := records;
      notifications := [];
    }

    /** `startScanning`. With the camera off it only starts the camera; with
        an empty roster it only reports the error; otherwise it scans and,
        whatever the outcome, ends not scanning. */
    method StartScanning(inputs: ScanInputs)
      modifies this`isCameraActive, this`cameraError, this`isScanning, this`scanResult, this`storedRecords, this`notifications
      ensures employees == old(employees)
      ensures !old(isCameraActive) ==>
        && isCameraActive == inputs.cameraGranted
        && cameraError == (if inputs.cameraGranted then None else Some(CameraErrorText))
        && isScanning == old(isScanning) && scanResult == old(scanResult)
        && storedRecords == old(storedRecords) && notifications == old(notifications)
      ensures old(isCameraActive) && |old(employees)| == 0 ==>
        && isCameraActive && cameraError == Some(NoEmployeesText)
        && isScanning == old(isScanning) && scanResult == old(scanResult)
        && storedRecords == old(storedRecords) && notifications == old(notifications)
      ensures old(isCameraActive) && |old(employees)| > 0 ==>
        var who := Recognized(old(employees), inputs);
        && isCameraActive && !isScanning && cameraError == old(cameraError)
        && scanResult == Some(ResultFor(who, inputs))
        && storedRecords == old(storedRecords) + RecordsFor(who, inputs)
        && notifications == old(notifications) + NotificationsFor(who, inputs)
    {
      if !isCameraActive {
        cameraError := None;
        if inputs.cameraGranted {
          isCameraActive := true;
        } else {
          cameraError := Some(CameraErrorText);
        }
        return;
      }
      if |employees| == 0 {
        cameraError := Some(NoEmployeesText);
        return;
      }
      ScanFrame(inputs);
    }

    /** The part of `startScanning` that runs with the camera on and a
        non-empty roster: grab a frame, look for a face, and record the
        recognized employee if there is one. */
    method ScanFrame(inputs: ScanInputs)
      requires |employees| > 0
      modifies this`isScanning, this`scanResult, this`storedRecords, this`notifications
      ensures !isScanning
      ensures scanResult == Some(ResultFor(Recognized(employees, inputs), inputs))
      ensures storedRecords == old(storedRecords) + RecordsFor(Recognized(employees, inputs), inputs)
      ensures notifications == old(notifications) + NotificationsFor(Recognized(employees, inputs), inputs)
    {
      isScanning := true;
      scanResult := None;
      if !inputs.frameCaptured || !inputs.faceDetected {
        scanResult := Some(Failed);
        isScanning := false;
        return;
      }
      var who := Recognize(employees, inputs.recognized, inputs.pick);
      if who.Some? {
        RecordScan(who.value, inputs);
      } else {
        scanResult := Some(Failed);
      }
      isScanning := false;
    }

    /** The end of `startScanning` once an employee is recognized: classify
        the scan, notify the admin of a late, early or overtime arrival, and
        store the record. */
    method RecordScan(e: Employee, inputs: ScanInputs)
      modifies this`scanResult, this`storedRecords, this`notifications
      ensures scanResult == Some(ResultFor(Some(e), inputs))
      ensures storedRecords == old(storedRecords) + RecordsFor(Some(e), inputs)
      ensures notifications == old(notifications) + NotificationsFor(Some(e), inputs)
    {
      var status := CheckAttendanceStatus(e.workingHours, inputs.weekday, inputs.now);
      scanResult := Some(Succeeded(e, ActionFor(inputs.wasCheckedIn), inputs.localTime, status));
      var n := NotificationFor(e, status);
      if n.Some? {
        notifications := notifications + [n.value];
      }
      var record := MakeRecord(e, status, ActionFor(inputs.wasCheckedIn), inputs.stamp, inputs.date, inputs.localTime);
      storedRecords := storedRecords + [record];
    }

    /** `resetScan`. */
    method ResetScan()
      modifies this`scanResult, this`cameraError
      ensures scanResult == None && cameraError == None
    {
      scanResult := None;
      cameraError := None;
    }

    /** The `update-action` listener: an `employees` message replaces the
        roster mirror; any other kind is ignored. */
    method OnUpdateAction(m: Protocol.Message<Employee>)
      modifies this`employees
      ensures employees == Protocol.Apply(old(employees), Protocol.EmployeesKind, m)
      ensures m.kind == Protocol.EmployeesKind ==> employees == m.payload
      ensures m.kind != Protocol.EmployeesKind ==> employees == old(employees)
    {
      if m.kind == Protocol.EmployeesKind {
        employees := m.payload;
      }
    }
  }

  /** On the default schedule, a weekday scan after 09:15 is late, with the
      message naming 09:00. */
  lemma LateAfterQuarterPastNine(weekday: string, now: string)
    requires weekday in Weekdays && ClockMinutes(now).Some? && ClockMinutes(now).value > 555
    ensures CheckAttendanceStatus(None, weekday, now).status == ScanStatus.Late
    ensures CheckAttendanceStatus(None, weekday, now).message == "Late arrival - work started at " + DefaultHours.startTime
  {
    DefaultScheduleBands(weekday, now);
  }

  /** 09:20 reads as minute 560. */
  lemma NineTwentyClock(now: string)
    requires now == "09:20"
    ensures ClockMinutes(now) == Some(560)
  {
    assert now == "09" + [':'] + "20";
    DigitField("09", 9);
    DigitField("20", 20);
    TwoFieldClock(now, "09", "20", 9, 20);
  }

  /** So a Monday scan at 09:20 on the default schedule is late. */
  lemma MondayNineTwentyIsLate(weekday: string, now: string)
    requires weekday == "monday" && now == "09:20"
    ensures CheckAttendanceStatus(None, weekday, now).status == ScanStatus.Late
  {
    NineTwentyClock(now);
    LateAfterQuarterPastNine(weekday, now);
  }

  /** An employee on the default schedule who checks in after 09:15 on a
      weekday: the kiosk stores one record, with the check-in time and
      marked late, and sends the admin one "Late Alert" that needs no
      action. */
  method LateCheckIn(e: Employee, weekday: string, now: string, date: string, localTime: string, stamp: string)
    requires e.workingHours == None && weekday in Weekdays
    requires ClockMinutes(now).Some? && ClockMinutes(now).value > 555
  {
    var kiosk := new Kiosk([e], []);
    kiosk.StartScanning(ScanInputs(true, false, false, false, 0, false, "", "", "", "", ""));
    assert kiosk.isCameraActive;
    var inputs := ScanInputs(true, true, true, true, 7, false, weekday, now, date, localTime, stamp);
    LateAfterQuarterPastNine(weekday, now);
    AlertTitles();
    assert Recognized([e], inputs) == Some(e);
    kiosk.StartScanning(inputs);
    assert |kiosk.storedRecords| == 1 && kiosk.storedRecords[0].record.status == RecordStatus.Late;
    assert kiosk.storedRecords[0].record.checkIn == localTime;
    assert |kiosk.notifications| == 1 && kiosk.notifications[0].title == "Late Alert";
    assert !kiosk.notifications[0].actionRequired;
  }
}
