/** The publisher side (admin-panel.tsx): the roster and attendance
    operations behind the admin panel's handlers, the dashboard views, and
    the panel's state with its publish effects. */
module AdminPanel {
  import opened Domain
  import opened Text
  import opened Seqs

  /** What the enrolment form hands over (`Partial<Employee>`); any field may
      be missing. */
  datatype PendingEmployee = PendingEmployee(
    name: Option<string>,
    email: Option<string>,
    department: Option<string>,
    position: Option<string>,
    workingHours: Option<WorkingHours>)

  /** `field || ""`. */
  function OrEmpty(o: Option<string>): string
  {
    match o
    case None => ""
    case Some(s) => s
  }

  /** The identifier of the employee enrolled when the roster holds `count`
      entries: "EMP" and `count + 1` zero-padded to three digits. */
  function EmployeeId(count: nat): (r: string)
    ensures |r| >= 6 && r[..3] == "EMP"
  {
    "EMP" + PadStart(Decimal(count + 1), 3, '0')
  }

  /** An identifier is "EMP", then at least three digits that read back as
      `count + 1`. */
  lemma EmployeeIdShape(count: nat)
    ensures |EmployeeId(count)| >= 6 && EmployeeId(count)[..3] == "EMP"
    ensures AllDigits(EmployeeId(count)[3..]) && ParseDecimal(EmployeeId(count)[3..]) == count + 1
  {
    var digits := PadStart(Decimal(count + 1), 3, '0');
    assert EmployeeId(count)[3..] == digits;
    ParsePadded(Decimal(count + 1), 3);
    ParseDecimalOfDecimal(count + 1);
  }

  /** Identifiers generated at different roster lengths differ. */
  lemma EmployeeIdInjective(n: nat, m: nat)
    requires EmployeeId(n) == EmployeeId(m)
    ensures n == m
  {
    EmployeeIdShape(n);
    EmployeeIdShape(m);
  }

  lemma FirstEmployeeId()
    ensures EmployeeId(0) == "EMP001"
  {
    assert Decimal(0 + 1) == "1" by {
      assert DigitChar(1) == '1';
    }
    assert PadStart("1", 3, '0') == "001" by {
      var r := PadStart("1", 3, '0');
      assert |r| == 3 && r[2..] == "1" && r[0] == '0' && r[1] == '0';
    }
  }

  /** The first character of every non-empty part, joined: what
      `parts.map((n) => n[0]).join("")` yields (an empty part contributes
      `undefined`, which `join` prints as nothing). */
  function Initials(parts: seq<string>): (r: string)
    ensures |r| <= |parts|
    ensures (forall k :: 0 <= k < |parts| ==> |parts[k]| > 0) ==>
      |r| == |parts| && forall k :: 0 <= k < |parts| ==> r[k] == parts[k][0]
  {
    if |parts| == 0 then ""
    else (if |parts[0]| > 0 then [parts[0][0]] else "") + Initials(parts[1..])
  }

  /** A part of a split name that has a first character. */
  predicate IsWord(part: string) { |part| > 0 }

  /** Empty parts (from repeated, leading or trailing spaces) contribute
      nothing: the initials are the first characters of the non-empty parts,
      in order. */
  lemma {:induction false} InitialsOfWords(parts: seq<string>)
    ensures HeadsOf(Initials(parts), Filter(parts, IsWord))
  {
    if |parts| > 0 {
      InitialsOfWords(parts[1..]);
      var rest, words := Initials(parts[1..]), Filter(parts[1..], IsWord);
      if IsWord(parts[0]) {
        assert Initials(parts) == [parts[0][0]] + rest;
        assert Filter(parts, IsWord) == [parts[0]] + words;
        HeadsOfCons(parts[0], rest, words);
      } else {
        assert Initials(parts) == rest;
        assert Filter(parts, IsWord) == words;
      }
    }
  }

  /** `r` holds the first character of every word of `words`, in order. */
  predicate HeadsOf(r: string, words: seq<string>)
  {
    |r| == |words| && forall k :: 0 <= k < |words| ==> |words[k]| > 0 && r[k] == words[k][0]
  }

  lemma HeadsOfCons(w: string, r: string, words: seq<string>)
    requires |w| > 0 && HeadsOf(r, words)
    ensures HeadsOf([w[0]] + r, [w] + words)
  {
    forall k | 1 <= k < |words| + 1 ensures ([w] + words)[k] == words[k - 1] && ([w[0]] + r)[k] == r[k - 1] {
    }
  }


  const AvatarPrefix: string := "/placeholder.svg?height=40&width=40&text="

  /** The placeholder avatar: the initials of the name's space-separated
      words, or "NA" when there is no name or no initial. */
  function Avatar(name: Option<string>): (r: string)
    ensures |r| > |AvatarPrefix| && r[..|AvatarPrefix|] == AvatarPrefix
    ensures name.None? ==> r == AvatarPrefix + "NA"
    ensures name.Some? && Initials(Split(name.value, ' ')) != "" ==>
      r[|AvatarPrefix|..] == Initials(Split(name.value, ' '))
    ensures name.Some? && Initials(Split(name.value, ' ')) == "" ==> r == AvatarPrefix + "NA"
  {
    var initials := match name
      case None => ""
      case Some(n) => Initials(Split(n, ' '));
    AvatarPrefix + (if initials == "" then "NA" else initials)
  }

  lemma AvatarOfTwoWords(first: string, last: string)
    requires |first| > 0 && |last| > 0 && ' ' !in first && ' ' !in last
    ensures Avatar(Some(first + " " + last)) == AvatarPrefix + [first[0], last[0]]
  {
    SplitTwo(first, ' ', last);
    assert first + " " + last == first + [' '] + last;
  }

  /** The entry `handleFaceCaptured` builds. The form's working hours are not
      used: every new employee gets the default schedule. */
  function NewEmployee(p: PendingEmployee, count: nat, faceData: string, today: string): (e: Employee)
    ensures e.id == EmployeeId(count) && e.status == Active
    ensures e.name == OrEmpty(p.name) && e.email == OrEmpty(p.email)
    ensures e.department == OrEmpty(p.department) && e.position == OrEmpty(p.position)
    ensures e.avatar == Avatar(p.name) && e.faceData == faceData && e.joinDate == today
    ensures e.workingHours == Some(DefaultHours)
  {
    Employee(
      EmployeeId(count), OrEmpty(p.name), OrEmpty(p.email), OrEmpty(p.department),
      OrEmpty(p.position), today, Active, Avatar(p.name), faceData, Some(DefaultHours))
  }

  /** `[...employees, newEmployee]`. */
  function Enrol(emps: seq<Employee>, p: PendingEmployee, faceData: string, today: string): (r: seq<Employee>)
    ensures |r| == |emps| + 1 && r[..|emps|] == emps
    ensures r[|emps|].id == EmployeeId(|emps|) && r[|emps|].status == Active
    ensures r[|emps|].name == OrEmpty(p.name) && r[|emps|].email == OrEmpty(p.email)
    ensures r[|emps|].department == OrEmpty(p.department) && r[|emps|].position == OrEmpty(p.position)
    ensures r[|emps|].faceData == faceData && r[|emps|].joinDate == today && r[|emps|].avatar == Avatar(p.name)
    ensures r[|emps|].workingHours == Some(WorkingHours("09:00", "18:00", 60, Weekdays))
  {
    emps + [NewEmployee(p, |emps|, faceData, today)]
  }

  /** The roster's identifiers are the ones enrolment hands out, in order. */
  predicate SequentialIds(emps: seq<Employee>)
  {
    forall i :: 0 <= i < |emps| ==> emps[i].id == EmployeeId(i)
  }

  predicate UniqueIds(emps: seq<Employee>)
  {
    forall i, j :: 0 <= i < j < |emps| ==> emps[i].id != emps[j].id
  }

  /** As long as nobody is deleted, enrolment keeps the identifiers
      sequential and therefore unique. */
  lemma EnrolKeepsIdsSequential(emps: seq<Employee>, p: PendingEmployee, faceData: string, today: string)
    requires SequentialIds(emps)
    ensures SequentialIds(Enrol(emps, p, faceData, today))
  {
    var r := Enrol(emps, p, faceData, today);
    forall i | 0 <= i < |r| ensures r[i].id == EmployeeId(i) {
      if i < |emps| {
        assert r[i] == r[..|emps|][i] == emps[i];
      }
    }
  }

  /** Sequential identifiers are pairwise distinct. */
  lemma SequentialIdsUnique(emps: seq<Employee>)
    requires SequentialIds(emps)
    ensures UniqueIds(emps)
  {
    forall i, j | 0 <= i < j < |emps| ensures emps[i].id != emps[j].id {
      if emps[i].id == emps[j].id {
        EmployeeIdInjective(i, j);
      }
    }
  }

  /** `employees.map((emp) => (emp.id === updated.id ? updated : emp))`. */
  function ReplaceById(emps: seq<Employee>, updated: Employee): (r: seq<Employee>)
    ensures |r| == |emps|
    ensures forall i :: 0 <= i < |r| ==> r[i] == if emps[i].id == updated.id then updated else emps[i]
  {
    if |emps| == 0 then []
    else [if emps[0].id == updated.id then updated else emps[0]] + ReplaceById(emps[1..], updated)
  }

  /** An edit never changes which identifiers the roster holds, nor where. */
  lemma ReplaceByIdKeepsIds(emps: seq<Employee>, updated: Employee)
    ensures forall i :: 0 <= i < |emps| ==> ReplaceById(emps, updated)[i].id == emps[i].id
  {
  }

  /** Editing an identifier the roster does not hold changes nothing, and
      repeating an edit changes nothing further. */
  lemma ReplaceByIdUnknownOrRepeated(emps: seq<Employee>, updated: Employee)
    ensures (forall i :: 0 <= i < |emps| ==> emps[i].id != updated.id) ==> ReplaceById(emps, updated) == emps
    ensures ReplaceById(ReplaceById(emps, updated), updated) == ReplaceById(emps, updated)
  {
  }

  predicate NotId(id: string, e: Employee) { e.id != id }

  predicate NotOwnedBy(id: string, r: AttendanceRecord) { r.employeeId != id }

  /** `employees.filter((emp) => emp.id !== id)`. */
  function WithoutEmployee(emps: seq<Employee>, id: string): (r: seq<Employee>)
    ensures |r| <= |emps|
    ensures forall e :: e in r <==> e in emps && e.id != id
  {
    Filter(emps, e => NotId(id, e))
  }

  /** `attendanceRecords.filter((record) => record.employeeId !== id)`. */
  function WithoutRecordsOf(recs: seq<AttendanceRecord>, id: string): (r: seq<AttendanceRecord>)
    ensures |r| <= |recs|
    ensures forall x :: x in r <==> x in recs && x.employeeId != id
  {
    Filter(recs, r => NotOwnedBy(id, r))
  }

  /** Deleting employee X removes exactly the entries with identifier X and
      exactly the attendance records of X, each other entry as often as
      before. */
  lemma DeleteRemovesExactly(emps: seq<Employee>, recs: seq<AttendanceRecord>, id: string)
    ensures forall e :: multiset(WithoutEmployee(emps, id))[e] == if e.id == id then 0 else multiset(emps)[e]
    ensures forall r :: multiset(WithoutRecordsOf(recs, id))[r] == if r.employeeId == id then 0 else multiset(recs)[r]
    ensures forall i :: 0 <= i < |WithoutEmployee(emps, id)| ==> WithoutEmployee(emps, id)[i].id != id
  {
    forall i | 0 <= i < |WithoutEmployee(emps, id)| ensures WithoutEmployee(emps, id)[i].id != id {
      assert WithoutEmployee(emps, id)[i] in WithoutEmployee(emps, id);
    }
  }

  /** Deletion keeps the survivors in their order: deleting from a roster
      split in two is deleting from each half. */
  lemma DeleteKeepsOrder(a: seq<Employee>, b: seq<Employee>, id: string)
    ensures WithoutEmployee(a + b, id) == WithoutEmployee(a, id) + WithoutEmployee(b, id)
  {
    FilterConcat(a, b, e => NotId(id, e));
  }

  /** Deleting the first employee of a roster enrolled without deletions
      frees the length the last identifier was derived from: the next
      enrolment hands out the last employee's identifier a second time, so
      identifiers are unique only while nobody is deleted. */
  lemma IdReusedAfterDelete(emps: seq<Employee>, p: PendingEmployee, faceData: string, today: string)
    requires SequentialIds(emps) && |emps| >= 2
    ensures var r := Enrol(WithoutEmployee(emps, emps[0].id), p, faceData, today);
      |r| == |emps| && r[|r| - 1].id == r[|r| - 2].id == emps[|emps| - 1].id
  {
    SequentialIdsUnique(emps);
    DeleteFirstOfUnique(emps);
    var rest := emps[1..];
    var r := Enrol(rest, p, faceData, today);
    assert r[|r| - 2] == r[..|rest|][|rest| - 1] == rest[|rest| - 1];
  }

  /** In a roster with distinct identifiers, deleting the first employee
      removes exactly that entry. */
  lemma DeleteFirstOfUnique(emps: seq<Employee>)
    requires UniqueIds(emps) && |emps| >= 1
    ensures WithoutEmployee(emps, emps[0].id) == emps[1..]
  {
    var id := emps[0].id;
    var rest := emps[1..];
    forall i | 0 <= i < |rest| ensures rest[i].id != id {
      assert rest[i] == emps[i + 1];
    }
    assert emps == [emps[0]] + rest;
    calc {
      WithoutEmployee(emps, id);
      == { DeleteKeepsOrder([emps[0]], rest, id); }
      WithoutEmployee([emps[0]], id) + WithoutEmployee(rest, id);
      == { DeleteSole(emps[0]); DeleteAbsent(rest, id); }
      [] + rest;
    }
    assert [] + rest == rest;
  }

  /** Enrolling into an empty roster gives a roster of the one new entry. */
  lemma EnrolIntoEmpty(p: PendingEmployee, faceData: string, today: string)
    ensures Enrol([], p, faceData, today) == [NewEmployee(p, 0, faceData, today)]
  {
  }

  /** Deleting the only employee leaves an empty roster. */
  lemma DeleteSole(e: Employee)
    ensures WithoutEmployee([e], e.id) == []
  {
    assert !NotId(e.id, e);
  }

  /** Deleting an identifier nobody holds keeps the roster as it is. */
  lemma DeleteAbsent(emps: seq<Employee>, id: string)
    requires forall i :: 0 <= i < |emps| ==> emps[i].id != id
    ensures WithoutEmployee(emps, id) == emps
  {
    FilterKeepsAll(emps, e => NotId(id, e));
  }

  /** The search box and department selector: the lower-cased name or email
      contains the lower-cased term, and the department is selected (or
      every department is). */
  predicate MatchesFilter(e: Employee, term: string, department: string)
    ensures MatchesFilter(e, term, department) ==> |term| <= |e.name| || |term| <= |e.email|
  {
    (Contains(ToLower(e.name), ToLower(term)) || Contains(ToLower(e.email), ToLower(term)))
    && (department == "all" || e.department == department)
  }

  function FilteredEmployees(emps: seq<Employee>, term: string, department: string): (r: seq<Employee>)
    ensures |r| <= |emps|
    ensures forall e :: e in r ==> e in emps && (department == "all" || e.department == department)
  {
    Filter(emps, e => MatchesFilter(e, term, department))
  }

  /** The filtered list keeps an entry exactly when it matches, as often as it
      occurs, in roster order. */
  lemma FilteredEmployeesExact(a: seq<Employee>, b: seq<Employee>, term: string, department: string)
    ensures forall e :: e in FilteredEmployees(a, term, department) <==> e in a && MatchesFilter(e, term, department)
    ensures forall e :: multiset(FilteredEmployees(a, term, department))[e] ==
                          (if MatchesFilter(e, term, department) then multiset(a)[e] else 0)
    ensures FilteredEmployees(a + b, term, department) ==
      FilteredEmployees(a, term, department) + FilteredEmployees(b, term, department)
  {
    FilterConcat(a, b, e => MatchesFilter(e, term, department));
  }

  /** No search term and "all" departments shows the whole roster. */
  lemma EmptySearchShowsAll(emps: seq<Employee>)
    ensures FilteredEmployees(emps, "", "all") == emps
  {
    forall i | 0 <= i < |emps| ensures MatchesFilter(emps[i], "", "all") {
      assert OccursAt(ToLower(emps[i].name), ToLower(""), 0);
    }
    FilterKeepsAll(emps, e => MatchesFilter(e, "", "all"));
  }

  function DepartmentColumn(emps: seq<Employee>): (r: seq<string>)
    ensures |r| == |emps| && forall i :: 0 <= i < |emps| ==> r[i] == emps[i].department
  {
    if |emps| == 0 then [] else [emps[0].department] + DepartmentColumn(emps[1..])
  }

  /** `[...new Set(employees.map((emp) => emp.department))]`: every
      department on the roster once, in order of first appearance. */
  function Departments(emps: seq<Employee>): (r: seq<string>)
    ensures forall d :: d in r <==> d in DepartmentColumn(emps)
    ensures forall d :: d in r <==> exists i :: 0 <= i < |emps| && emps[i].department == d
    ensures NoDuplicates(r)
    ensures forall i, j :: 0 <= i < j < |r| ==>
      FirstIndex(DepartmentColumn(emps), r[i]) < FirstIndex(DepartmentColumn(emps), r[j])
  {
    var col := DepartmentColumn(emps);
    assert forall d :: d in col <==> exists i :: 0 <= i < |emps| && emps[i].department == d by {
      forall d | d in col ensures exists i :: 0 <= i < |emps| && emps[i].department == d {
        var i :| 0 <= i < |col| && col[i] == d;
      }
    }
    Dedup(col)
  }

  predicate OnDate(today: string, r: AttendanceRecord) { r.date == today }

  predicate HasStatus(s: RecordStatus, r: AttendanceRecord) { r.status == s }

  /** `todayAttendance`: the records dated today. */
  function TodayAttendance(recs: seq<AttendanceRecord>, today: string): (r: seq<AttendanceRecord>)
    ensures |r| <= |recs|
    ensures forall x :: x in r <==> x in recs && x.date == today
    ensures forall x :: multiset(r)[x] == if x.date == today then multiset(recs)[x] else 0
  {
    Filter(recs, r => OnDate(today, r))
  }

  /** How many of `recs` carry status `s` (`presentToday`, `lateToday`). */
  function CountStatus(recs: seq<AttendanceRecord>, s: RecordStatus): (n: nat)
    ensures n <= |recs|
    ensures n == 0 <==> forall x :: x in recs ==> x.status != s
  {
    var kept := Filter(recs, r => HasStatus(s, r));
    assert |kept| > 0 ==> kept[0] in kept;
    |kept|
  }

  /** A single record counts once for its own status and not at all for any
      other. */
  lemma CountStatusOfOne(x: AttendanceRecord, s: RecordStatus)
    ensures CountStatus([x], s) == if x.status == s then 1 else 0
  {
    assert [x][1..] == [];
  }

  /** Counts add over concatenation; with `CountStatusOfOne` this fixes the
      count of every list: the number of its records with that status. */
  lemma CountStatusConcat(a: seq<AttendanceRecord>, b: seq<AttendanceRecord>, s: RecordStatus)
    ensures CountStatus(a + b, s) == CountStatus(a, s) + CountStatus(b, s)
  {
    FilterConcat(a, b, r => HasStatus(s, r));
  }

  /** Every record is present, late or absent, so the three counts add up to
      the number of records. */
  lemma {:induction false} StatusCountsPartition(recs: seq<AttendanceRecord>)
    ensures CountStatus(recs, Present) + CountStatus(recs, Late) + CountStatus(recs, Absent) == |recs|
  {
    if |recs| > 0 {
      StatusCountsPartition(recs[1..]);
    }
  }

  /** The dashboard's present and late counts never exceed today's records. */
  lemma DashboardCountsBounded(recs: seq<AttendanceRecord>, today: string)
    ensures CountStatus(TodayAttendance(recs, today), Present) + CountStatus(TodayAttendance(recs, today), Late)
      <= |TodayAttendance(recs, today)| <= |recs|
  {
    StatusCountsPartition(TodayAttendance(recs, today));
  }

  predicate NotDay(day: string, d: string) { d != day }

  /** `handleWorkDayToggle`: a selected day is removed (every occurrence), an
      unselected one is added at the end. */
  function ToggleWorkDay(days: seq<string>, day: string): (r: seq<string>)
    ensures day !in days ==> r == days + [day]
    ensures day in days ==> r == Filter(days, d => NotDay(day, d))
    ensures day in r <==> day !in days
    ensures forall d :: d != day ==> (d in r <==> d in days)
    ensures Filter(r, d => NotDay(day, d)) == Filter(days, d => NotDay(day, d))
  {
    if day in days then
      var r := Filter(days, d => NotDay(day, d));
      FilterKeepsAll(r, d => NotDay(day, d));
      r
    else
      FilterConcat(days, [day], d => NotDay(day, d));
      assert Filter([day], d => NotDay(day, d)) == [];
      days + [day]
  }

  /** Toggling an unselected day twice restores the selection. */
  lemma ToggleTwiceRestores(days: seq<string>, day: string)
    requires day !in days
    ensures ToggleWorkDay(ToggleWorkDay(days, day), day) == days
  {
    FilterConcat(days, [day], d => NotDay(day, d));
    assert Filter([day], d => NotDay(day, d)) == [];
    assert forall i :: 0 <= i < |days| ==> NotDay(day, days[i]);
    FilterKeepsAll(days, d => NotDay(day, d));
  }

  /** "Recent attendance": `attendanceRecords.slice(-5).reverse()`, the last
      five records (or all, when fewer), newest first. */
  function RecentRecords(recs: seq<AttendanceRecord>): (r: seq<AttendanceRecord>)
    ensures |r| == if |recs| < 5 then |recs| else 5
    ensures forall i :: 0 <= i < |r| ==> r[i] == recs[|recs| - 1 - i]
  {
    Reverse(if |recs| <= 5 then recs else recs[|recs| - 5..])
  }

  /** The attendance tab's history: `attendanceRecords.slice().reverse()`. */
  function AttendanceHistory(recs: seq<AttendanceRecord>): (r: seq<AttendanceRecord>)
    ensures |r| == |recs| && forall i :: 0 <= i < |recs| ==> r[i] == recs[|recs| - 1 - i]
  {
    Reverse(recs)
  }

  /** The dashboard's recent list is the head of the history table, and the
      history holds every record exactly as often as the log does. */
  lemma RecentIsHeadOfHistory(recs: seq<AttendanceRecord>)
    ensures var n := if |recs| < 5 then |recs| else 5;
      n <= |AttendanceHistory(recs)| && RecentRecords(recs) == AttendanceHistory(recs)[..n]
    ensures multiset(AttendanceHistory(recs)) == multiset(recs)
  {
    ReverseKeepsMultiset(recs);
  }

  /** A full-collection `admin-action` the panel emits. */
  datatype Publication =
    | Employees(employees: seq<Employee>)
    | Attendance(records: seq<AttendanceRecord>)

  /** The admin panel's state. `published` lists, in order, the `admin-action`
      messages its two publish effects have emitted. A handler that calls
      `setEmployees` always builds a new array, so the employees effect runs
      after it even when the contents happen to be equal; likewise for
      attendance records. */
  class Panel {
    var employees: seq<Employee>
    var attendanceRecords: seq<AttendanceRecord>
    var pendingEmployeeData: Option<PendingEmployee>
    var showFaceCapture: bool
    var isAddEmployeeOpen: bool
    var editingEmployee: Option<Employee>
    var published: seq<Publication>

    /** The panel once mounted: both collections empty, and both effects have
        run with the socket in place, publishing the empty collections. */
    constructor ()
      ensures employees == [] && attendanceRecords == []
      ensures pendingEmployeeData == None && !showFaceCapture && !isAddEmployeeOpen && editingEmployee == None
      ensures published == [Employees([]), Attendance([])]
    {
      employees := [];
      attendanceRecords := [];
      pendingEmployeeData := None;
      showFaceCapture := false;
      isAddEmployeeOpen := false;
      editingEmployee := None;
      published := [Employees([]), Attendance([])];
    }

    /** The effect on `employees`. */
    method PublishEmployees()
      modifies this`published
      ensures published == old(published) + [Employees(employees)]
    {
      published := published + [Employees(employees)];
    }

    /** The effect on `attendanceRecords`. */
    method PublishAttendance()
      modifies this`published
      ensures published == old(published) + [Attendance(attendanceRecords)]
    {
      published := published + [Attendance(attendanceRecords)];
    }

    /** `handleAddEmployee`: keep the form data and open face capture. */
    method AddEmployee(data: PendingEmployee)
      modifies this
      ensures pendingEmployeeData == Some(data) && showFaceCapture && !isAddEmployeeOpen
      ensures employees == old(employees) && attendanceRecords == old(attendanceRecords)
      ensures editingEmployee == old(editingEmployee) && published == old(published)
    {
      pendingEmployeeData := Some(data);
      showFaceCapture := true;
      isAddEmployeeOpen := false;
    }

    /** `handleFaceCaptured`: with pending form data, append the new employee
        (and publish the roster); in any case close face capture and drop the
        pending data. */
    method FaceCaptured(faceData: string, today: string)
      modifies this
      ensures old(pendingEmployeeData).Some? ==>
        employees == Enrol(old(employees), old(pendingEmployeeData).value, faceData, today) &&
        published == old(published) + [Employees(employees)]
      ensures old(pendingEmployeeData).None? ==> employees == old(employees) && published == old(published)
      ensures attendanceRecords == old(attendanceRecords)
      ensures pendingEmployeeData == None && !showFaceCapture
      ensures isAddEmployeeOpen == old(isAddEmployeeOpen) && editingEmployee == old(editingEmployee)
    {
      if pendingEmployeeData.Some? {
        employees := Enrol(employees, pendingEmployeeData.value, faceData, today);
        PublishEmployees();
      }
      showFaceCapture := false;
      pendingEmployeeData := None;
    }

    /** `handleCancelFaceCapture`. */
    method CancelFaceCapture()
      modifies this
      ensures pendingEmployeeData == None && !showFaceCapture
      ensures employees == old(employees) && attendanceRecords == old(attendanceRecords)
      ensures published == old(published) && editingEmployee == old(editingEmployee)
      ensures isAddEmployeeOpen == old(isAddEmployeeOpen)
    {
      showFaceCapture := false;
      pendingEmployeeData := None;
    }

    /** `handleEditEmployee`: open the edit dialog on `e`. */
    method EditEmployee(e: Employee)
      modifies this`editingEmployee
      ensures editingEmployee == Some(e)
    {
      editingEmployee := Some(e);
    }

    /** `handleUpdateEmployee`: replace by identifier, publish, close the
        dialog. */
    method UpdateEmployee(updated: Employee)
      modifies this
      ensures employees == ReplaceById(old(employees), updated)
      ensures published == old(published) + [Employees(employees)]
      ensures attendanceRecords == old(attendanceRecords) && editingEmployee == None
      ensures pendingEmployeeData == old(pendingEmployeeData) && showFaceCapture == old(showFaceCapture)
      ensures isAddEmployeeOpen == old(isAddEmployeeOpen)
    {
      employees := ReplaceById(employees, updated);
      editingEmployee := None;
      PublishEmployees();
    }

    /** `handleDeleteEmployee`: drop the employee and, in cascade, the
        employee's attendance records; the roster is published first (its
        effect is declared first), then the records. */
    method DeleteEmployee(id: string)
      modifies this`employees, this`attendanceRecords, this`published
      ensures employees == WithoutEmployee(old(employees), id)
      ensures attendanceRecords == WithoutRecordsOf(old(attendanceRecords), id)
      ensures published == old(published) + [Employees(employees), Attendance(attendanceRecords)]
      ensures pendingEmployeeData == old(pendingEmployeeData) && showFaceCapture == old(showFaceCapture)
      ensures editingEmployee == old(editingEmployee) && isAddEmployeeOpen == old(isAddEmployeeOpen)
    {
      var staff := WithoutEmployee(employees, id);
      var log := WithoutRecordsOf(attendanceRecords, id);
      employees, attendanceRecords := staff, log;
      PublishEmployees();
      PublishAttendance();
    }

  }

  /** Enrolling one employee on an empty panel publishes a roster holding
      exactly that employee; deleting the employee then publishes an empty
      roster and an empty attendance log. */
  method EnrolThenDelete(form: PendingEmployee, faceData: string, today: string)
  {
    var panel := new Panel();
    panel.AddEmployee(form);
    panel.FaceCaptured(faceData, today);
    var sole := NewEmployee(form, 0, faceData, today);
    EnrolIntoEmpty(form, faceData, today);
    assert panel.employees == [sole];
    assert panel.published == [Employees([]), Attendance([]), Employees([sole])];
    DeleteSole(sole);
    panel.DeleteEmployee(sole.id);
    assert panel.employees == [] && panel.attendanceRecords == [];
    assert panel.published[3..] == [Employees([]), Attendance([])];
  }

}
