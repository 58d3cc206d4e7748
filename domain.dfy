/** The two shared collections' entries, as both the admin panel and the
    kiosk declare them (admin-panel.tsx and face-scan-page.tsx). */
module Domain {

  datatype Option<T> = None | Some(value: T)

  /** An employee's schedule: "HH:MM" start and end, break minutes, and the
      lower-case English names of the working weekdays. */
  datatype WorkingHours = WorkingHours(
    startTime: string,
    endTime: string,
    breakDuration: int,
    workDays: seq<string>)

  datatype EmployeeStatus = Active | Inactive

  /** A roster entry. The kiosk declares `workingHours` optional (an entry
      read back from browser storage may lack it); the admin panel always
      fills it in. */
  datatype Employee = Employee(
    id: string,
    name: string,
    email: string,
    department: string,
    position: string,
    joinDate: string,
    status: EmployeeStatus,
    avatar: string,
    faceData: string,
    workingHours: Option<WorkingHours>)

  datatype RecordStatus = Present | Absent | Late

  /** An attendance entry; `employeeName` is a copy, not a reference. */
  datatype AttendanceRecord = AttendanceRecord(
    id: string,
    employeeId: string,
    employeeName: string,
    date: string,
    checkIn: string,
    checkOut: string,
    status: RecordStatus,
    totalHours: string)

  const Weekdays: seq<string> := ["monday", "tuesday", "wednesday", "thursday", "friday"]

  /** The schedule both the enrolment form and the kiosk fall back to. */
  const DefaultHours: WorkingHours := WorkingHours("09:00", "18:00", 60, Weekdays)
}
