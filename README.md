# NammaEmployees attendance core, modelled in Dafny

NammaEmployees is a face-recognition attendance demo with three parts.

- **Admin panel.** It keeps the employee roster and the attendance log in memory. It publishes every change to either collection as a full snapshot (`admin-action`) to a small socket relay.
- **Relay.** It remembers the last snapshot of each collection and forwards each snapshot (`update-action`) to every other connected socket. It also answers a `request-data` with the role `"client"` by sending both cached collections to the requester. No page in the repository sends `request-data`, so that path is modelled but never exercised by the kiosk.
- **Kiosk.** It keeps a mirror of the roster. On mount it reads the roster from local storage, which none of these files writes. After that, only an `update-action` can change it, and the relay sends one only when the admin panel publishes a new roster. It classifies each scan as non-working-day, early, late, overtime or on time, and stores an attendance record. For late, early and overtime scans it also raises a notification for the admin.

An employee is enrolled by taking three face captures in a capture widget.

This project models those four pieces. Camera, clock, randomness and transport are not modelled; the values they supply are taken as inputs. Each file is one module:

| file | module | models |
|---|---|---|
| `text.dfy` | `Text` | The JavaScript string operations the code relies on: `String(n)`, `padStart`, `parseInt` on digits, `split`/`join`, ASCII case mapping, `includes`. |
| `seqs.dfy` | `Seqs` | `filter`, `[...new Set(xs)]` and `reverse()`. |
| `domain.dfy` | `Domain` | Employees, working hours, attendance records, and the default schedule (09:00–18:00, 60 minutes of break, Monday to Friday). |
| `protocol.dfy` | `Protocol` | The `{type, payload}` messages. A receiver applies a message by replacing the mirror of that kind wholesale. |
| `relay.dfy` | `Relay` | `socketServer.js`, in two forms: pure step functions over a relay state, and the class `Server` holding the two caches, the connected sockets and one outbox per socket. Each `Server` method is proved equal to its step function. |
| `admin_panel.dfy` | `AdminPanel` | The roster and attendance operations of `admin-panel.tsx`. The class `Panel` holds the component's state and records every snapshot its two publish effects emit. |
| `face_scan.dfy` | `FaceScan` | `checkAttendanceStatus`, the record and notification a scan produces, and the class `Kiosk` with `startScanning`, `resetScan` and the `update-action` listener. |
| `face_capture.dfy` | `FaceCapture` | The class `Widget` with the capture counter of `face-capture.tsx`. |

Behaviour of the code that the model keeps and states:

- **Identifiers can repeat after a deletion.** An employee identifier is derived from the roster's length (`AdminPanel.EmployeeId`). Identifiers are therefore unique only as long as nobody is deleted. `AdminPanel.IdReusedAfterDelete` shows that after the first employee is deleted, the next enrolment is handed the identifier the last employee already holds.
- **Enrolment ignores the form's schedule.** `handleFaceCaptured` always stores the default working hours, whatever the form held.
- **The admin's own updates never come back.** The relay forwards an `admin-action` to every socket but its sender.
- **Ordering of publish events.**
  - A handler that calls `setEmployees` always builds a new array, so the roster is republished even when its contents did not change.
  - Deleting an employee publishes the roster first and then the attendance log, in the order the two effects are declared.
  - On mount, both empty collections are published once the socket exists.
- **A reset during a capture is undone.** `handleCapture` waits one second. It then writes a count and an image list computed from the values it started with. A reset pressed during that second is therefore lost (`FaceCapture.ResetDuringCaptureIsOverwritten`).
- **An unparseable schedule time behaves as `NaN`.**
  - If the clock or the start time does not parse, no comparison with it holds, so the scan is never early or late.
  - `FaceScan.ClockMinutes` returns `None` for `NaN`.

## Model

| member | source | states |
|---|---|---|
| Text.Decimal | admin-panel.tsx:149 | `String(n)` is a non-empty digit string. It has a leading zero only for 0. |
| Text.ParseDecimalOfDecimal | admin-panel.tsx:149 | Reading the decimal rendering of `n` back gives `n`. |
| Text.PadStart | admin-panel.tsx:149 | `padStart(width, fill)` has length `max(|s|, width)`. It ends with `s`, and every character before `s` is the fill. |
| Text.ParsePadded | admin-panel.tsx:149 | Zero padding keeps a digit string all digits and keeps its value. |
| Text.LeadingDigits | face-scan-page.tsx:197-199 | The part `parseInt` reads is the longest digit prefix. |
| Text.Split | face-scan-page.tsx:197-199 | A split has at least one part. No part contains the separator. Joining the parts gives the input back. |
| Text.SplitTwo | admin-panel.tsx:158 | A string with exactly one separator splits into its two sides. |
| Text.ToLower | admin-panel.tsx:198-199 | Lower-casing keeps the length and maps each character. |
| Text.Contains | admin-panel.tsx:198-199 | `includes` holds iff the needle occurs at some position. |
| Text.Capitalize | face-scan-page.tsx:282 | Only the first character changes, to its upper-case form. |
| Seqs.Filter | admin-panel.tsx:191-193 | `filter` keeps an element iff it satisfies the predicate, as often as it occurs, never lengthening the list. |
| Seqs.FilterConcat | admin-panel.tsx:196-202 | Filtering distributes over concatenation, so kept elements keep their relative order. |
| Seqs.Dedup | admin-panel.tsx:204 | `[...new Set(s)]` has the same elements as `s` and no duplicates, in order of first occurrence. |
| Seqs.Reverse | admin-panel.tsx:352-354 | `reverse()` puts element `i` at position `n-1-i`. |
| Seqs.ReverseKeepsMultiset | admin-panel.tsx:585-587 | Reversing keeps every element with its multiplicity. |
| Protocol.Apply | face-scan-page.tsx:65-70 | A message of the mirror's kind replaces the mirror with its payload. A message of any other kind leaves the mirror unchanged. |
| Protocol.Follow | face-scan-page.tsx:65-70 | After a run of messages, the mirror is either what it started as or the payload of some received message of its kind. |
| Protocol.FollowConcat | face-scan-page.tsx:65-70 | Receiving two runs of messages in turn is receiving their concatenation. |
| Protocol.FollowIsLastWrite | face-scan-page.tsx:65-70 | A mirror ends as the payload of the last message of its kind. It is unchanged when no message of its kind arrived. |
| Protocol.DuplicateIsHarmless | face-scan-page.tsx:65-70 | Receiving the same snapshot twice leaves the mirror as receiving it once. |
| Relay.Init | socketServer.js:13-14 | Both caches start empty and nobody is connected. |
| Relay.OnConnect | socketServer.js:16-17 | A new socket gets an empty outbox. Caches and the other outboxes are unchanged. |
| Relay.Snapshot | socketServer.js:21-22 | The reply to a client is two messages of different kinds. Each carries the relay's current cache of that kind. |
| Relay.OnRequestData | socketServer.js:19-24 | A client's `request-data` appends exactly two messages, to the requester only: the employees cache, then the attendance cache. Any other role changes nothing. |
| Relay.Broadcast | socketServer.js:30 | The message is appended to the outbox of every connected socket except the sender. The sender's outbox is unchanged, and the set of sockets is the same. |
| Relay.OnAdminAction | socketServer.js:26-36 | A known kind replaces that cache alone and is appended to every connected outbox except the sender's. The sender's outbox is untouched. Any other kind changes nothing. |
| Relay.OnDisconnect | socketServer.js:38-40 | Disconnecting removes only that socket and keeps both caches. |
| Relay.Step | socketServer.js:16-40 | Only `connection` adds a socket and only `disconnect` removes one. `request-data` and `admin-action` keep the set of connected sockets. |
| Relay.RunKeepsUninvolved | socketServer.js:16-40 | A socket that takes part in none of the events is connected afterwards exactly when it was before. |
| Relay.StepCache | socketServer.js:26-36 | An event changes cache `kind` exactly when it is an `admin-action` of that kind, and then to its payload. |
| Relay.UnwrittenCacheKept | socketServer.js:13-14 | A cache that no `admin-action` writes keeps its starting value through any run of events. |
| Relay.LastWriteWins | socketServer.js:28-32 | After any run of events, each cache equals the payload of the last `admin-action` of its kind. |
| Relay.ResendIsHarmless | socketServer.js:26-36 | Processing the same `admin-action` twice leaves the caches as processing it once. Every subscriber's mirror also ends the same. |
| Relay.LateJoinerSynchronises | socketServer.js:19-24 | A socket that connects and sends `request-data` as a client receives exactly the current caches, so its mirrors equal them. No client in the repository sends `request-data`; the kiosk never takes this path. |
| Relay.StepOutbox | socketServer.js:19-36 | One event appends to a socket's outbox exactly what that event sends the socket. |
| Relay.StepKeepsInStep | socketServer.js:19-36 | A subscriber whose mirror equals a cache still equals it after one event. |
| Relay.TrackOneEvent | socketServer.js:19-36 | After one more event, a subscriber's outbox still extends what it held at the start. The mirror built from what arrived since then still equals the cache. |
| Relay.SubscriberTracksRelay | socketServer.js:19-36 | A connected socket that sends no `admin-action` and applies everything it receives keeps each mirror equal to the relay's cache, after any run of events. |
| Relay.Server.constructor | socketServer.js:13-14 | The process starts with empty caches and no sockets. |
| Relay.Server.Connect | socketServer.js:16-17 | Connecting is `OnConnect` on the server's state. |
| Relay.Server.Emit | socketServer.js:21 | `socket.emit` appends one message to that socket's outbox. Nothing else changes. |
| Relay.Server.RequestData | socketServer.js:19-24 | Two emits give exactly `OnRequestData`. |
| Relay.Server.AdminAction | socketServer.js:26-36 | Reassigning one cache and broadcasting is `OnAdminAction`. The other cache keeps its value. |
| Relay.Server.Disconnect | socketServer.js:38-40 | Disconnecting is `OnDisconnect`. Both caches keep their values. |
| AdminPanel.EmployeeId | admin-panel.tsx:149 | An identifier is at least six characters long and starts with "EMP". |
| AdminPanel.EmployeeIdShape | admin-panel.tsx:149 | An identifier is "EMP" followed by at least three digits that read back as length + 1. |
| AdminPanel.EmployeeIdInjective | admin-panel.tsx:149 | Different roster lengths give different identifiers. |
| AdminPanel.FirstEmployeeId | admin-panel.tsx:149 | The first employee is "EMP001". |
| AdminPanel.Initials | admin-panel.tsx:156-161 | The initials are at most one character per word. When every word is non-empty, they are exactly the first character of each word. |
| AdminPanel.InitialsOfWords | admin-panel.tsx:156-161 | Empty words contribute nothing: the initials are exactly the first characters of the non-empty words, in order, so "Ann  Lee" gives "AL". |
| AdminPanel.AvatarOfTwoWords | admin-panel.tsx:156-161 | A two-word name gets an avatar carrying its two initials. |
| AdminPanel.Avatar | admin-panel.tsx:156-161 | The avatar is the placeholder prefix followed by the initials of the name's space-separated words. It is the prefix followed by "NA" when there is no name or the name yields no initial. |
| AdminPanel.NewEmployee | admin-panel.tsx:147-166 | The new entry has the identifier for the current length, status active, and missing text fields as "". It carries the avatar of the name, the face data, today's date and the default schedule. The form's own schedule is ignored. |
| AdminPanel.Enrol | admin-panel.tsx:146-170 | Enrolment appends exactly one employee at the end and keeps the others. The new employee has the next identifier and is active. Missing fields become "". It gets the face data, today's date, the avatar built from the name's initials, and the default schedule. |
| AdminPanel.EnrolIntoEmpty | admin-panel.tsx:146-170 | Enrolling into an empty roster gives exactly the one new entry. |
| AdminPanel.EnrolKeepsIdsSequential | admin-panel.tsx:149 | Without deletions, identifiers remain EMP001, EMP002, … in roster order. |
| AdminPanel.SequentialIdsUnique | admin-panel.tsx:149 | Sequential identifiers are pairwise distinct. |
| AdminPanel.ReplaceById | admin-panel.tsx:185-188 | An edit keeps length and order. It replaces every entry with the edited identifier and no other entry. |
| AdminPanel.ReplaceByIdKeepsIds | admin-panel.tsx:186 | An edit keeps the identifier at every position. |
| AdminPanel.ReplaceByIdUnknownOrRepeated | admin-panel.tsx:186 | Editing an absent identifier changes nothing. Repeating an edit changes nothing further. |
| AdminPanel.WithoutEmployee | admin-panel.tsx:191 | The remaining roster is never longer than before. It holds an employee exactly when that employee was on the roster with a different identifier. |
| AdminPanel.WithoutRecordsOf | admin-panel.tsx:193 | The remaining log is never longer than before. It holds a record exactly when that record was in the log and belongs to someone else. |
| AdminPanel.DeleteRemovesExactly | admin-panel.tsx:190-194 | Deleting X removes exactly the employees with identifier X and exactly X's attendance records. Every other entry keeps its multiplicity. |
| AdminPanel.DeleteKeepsOrder | admin-panel.tsx:191 | The survivors of a deletion keep their relative order. |
| AdminPanel.DeleteSole | admin-panel.tsx:191 | Deleting the only employee leaves an empty roster. |
| AdminPanel.DeleteAbsent | admin-panel.tsx:191 | Deleting an identifier nobody holds keeps the roster unchanged. |
| AdminPanel.DeleteFirstOfUnique | admin-panel.tsx:191 | With unique identifiers, deleting the first employee leaves exactly the rest of the roster. |
| AdminPanel.IdReusedAfterDelete | admin-panel.tsx:149 | On a roster of at least two with sequential identifiers, deleting the first employee and enrolling again keeps the length. The new employee then gets the identifier the previous last employee already holds. |
| AdminPanel.MatchesFilter | admin-panel.tsx:197-201 | An employee can match only when the search term is no longer than the name or the email. |
| AdminPanel.FilteredEmployees | admin-panel.tsx:196-202 | The list is never longer than the roster. Everyone listed is on the roster and in the selected department, or any department under "all". |
| AdminPanel.FilteredEmployeesExact | admin-panel.tsx:196-202 | An employee is listed iff the lower-cased name or email contains the lower-cased term and the department matches or is "all". Each is listed as often as on the roster, in roster order. |
| AdminPanel.EmptySearchShowsAll | admin-panel.tsx:196-202 | An empty term together with "all" lists every employee. |
| AdminPanel.DepartmentColumn | admin-panel.tsx:204 | The mapped column holds each employee's department at that employee's position. |
| AdminPanel.Departments | admin-panel.tsx:204 | The department list holds exactly the departments on the roster, without duplicates, in order of first appearance. |
| AdminPanel.TodayAttendance | admin-panel.tsx:206 | Today's records are exactly the records of the log dated today, each as often as in the log. There are never more than in the log. |
| AdminPanel.CountStatus | admin-panel.tsx:207-208 | A status count never exceeds the number of records. It is zero exactly when no record has that status. |
| AdminPanel.CountStatusOfOne | admin-panel.tsx:207-208 | One record counts 1 for its own status and 0 for any other. |
| AdminPanel.CountStatusConcat | admin-panel.tsx:207-208 | The count of a concatenation is the sum of the counts, so with the one-record case a count is the number of records with that status. |
| AdminPanel.StatusCountsPartition | admin-panel.tsx:206-208 | The present, late and absent counts add up to the number of records. |
| AdminPanel.DashboardCountsBounded | admin-panel.tsx:206-208 | Present plus late today never exceeds today's records, which never exceed the log. |
| AdminPanel.ToggleWorkDay | admin-panel.tsx:672-675 | An unselected day is appended once, at the end. A selected day is removed everywhere, and the remaining days keep their order. So membership of the day flips, no other day's membership changes, and with the day set aside the list is unchanged. |
| AdminPanel.ToggleTwiceRestores | admin-panel.tsx:863-866 | Toggling an unselected day twice restores the list. |
| AdminPanel.RecentRecords | admin-panel.tsx:352-354 | The recent view holds the last `min(5, n)` records, newest first. |
| AdminPanel.AttendanceHistory | admin-panel.tsx:585-587 | The history has every record of the log, newest first: entry `i` is record `n-1-i`. |
| AdminPanel.RecentIsHeadOfHistory | admin-panel.tsx:585-587 | The recent view is the head of the reversed history table. The history holds every record exactly as often as the log. |
| AdminPanel.Panel.constructor | admin-panel.tsx:83-92 | After mount, both collections are empty and the two empty snapshots have been published, employees first. |
| AdminPanel.Panel.PublishEmployees | admin-panel.tsx:127-131 | The roster effect appends one `employees` snapshot of the current roster. |
| AdminPanel.Panel.PublishAttendance | admin-panel.tsx:140-144 | The attendance effect appends one `attendanceRecords` snapshot of the current log. |
| AdminPanel.Panel.AddEmployee | admin-panel.tsx:133-137 | The form data is kept and face capture opens; the add dialog closes. |
| AdminPanel.Panel.FaceCaptured | admin-panel.tsx:146-174 | With pending data, the roster becomes `Enrol(...)` and is published once. Without pending data, nothing is published. On both paths, capture closes and the pending data is cleared. |
| AdminPanel.Panel.CancelFaceCapture | admin-panel.tsx:176-179 | Capture closes, pending data is cleared, nothing is published. |
| AdminPanel.Panel.EditEmployee | admin-panel.tsx:181-183 | The edit dialog opens on that employee. |
| AdminPanel.Panel.UpdateEmployee | admin-panel.tsx:185-188 | The roster becomes `ReplaceById(...)` and is published. The dialog closes. |
| AdminPanel.Panel.DeleteEmployee | admin-panel.tsx:190-194 | The employee and, in cascade, the employee's records are removed. The roster is published, then the log. |
| FaceScan.ParseLeadingInt | face-scan-page.tsx:197-199 | `parseInt` gives a number exactly when the text starts with a digit. The number is never negative. |
| FaceScan.ClockMinutes | face-scan-page.tsx:197-199 | A time that reads as a number of minutes contains a ':', and the number is never negative. Text that is empty or does not start with a digit reads as `NaN`. |
| FaceScan.ClockRoundTrip | face-scan-page.tsx:197-199 | An "HH:MM" time reads as hours × 60 + minutes. |
| FaceScan.ClockMinutesOfFields | face-scan-page.tsx:197-199 | A two-field time is read field by field. |
| FaceScan.PaddedFieldReadsBack | face-scan-page.tsx:175 | A zero-padded field contains no ':' and parses back to its value. |
| FaceScan.ParseLeadingDigits | face-scan-page.tsx:197-199 | `parseInt` of a digit string is its value. |
| FaceScan.TwoFieldClock | face-scan-page.tsx:197-199 | Two fields around one ':' that parse to `h` and `m` read as `h` × 60 + `m`. |
| FaceScan.DigitField | face-scan-page.tsx:197-199 | A field of digits contains no ':' and `parseInt` reads it as its decimal value. |
| FaceScan.DefaultStartClock | face-scan-page.tsx:178-183 | The default start time "09:00" is minute 540. |
| FaceScan.DefaultEndClock | face-scan-page.tsx:178-183 | The default end time "18:00" is minute 1080. |
| FaceScan.HoursOf | face-scan-page.tsx:174-183 | An employee without a schedule gets the default schedule. Otherwise the employee's own schedule is used. |
| FaceScan.CheckAttendanceStatus | face-scan-page.tsx:173-226 | The result is non-working-day iff the day is not a working day, whatever the time. The default applies when there is no schedule. On a working day with parseable times, it is early iff cur < start − 30. It is late iff not early and cur > start + 15. It is overtime iff neither and cur > end + 30. Otherwise it is on time. Each status carries its fixed message. |
| FaceScan.OvertimeUnreachable | face-scan-page.tsx:208-219 | Overtime never occurs when the schedule ends no earlier than 15 minutes before it starts. |
| FaceScan.DefaultScheduleBands | face-scan-page.tsx:178-224 | On the default schedule on a weekday: before 08:30 is early, after 09:15 is late, anything in between is on time, and overtime never occurs. |
| FaceScan.LateAfterQuarterPastNine | face-scan-page.tsx:208-213 | On the default schedule, a weekday scan after 09:15 is late, with the message naming the default start time. |
| FaceScan.NineTwentyClock | face-scan-page.tsx:197-199 | "09:20" reads as minute 560. |
| FaceScan.MondayNineTwentyIsLate | face-scan-page.tsx:208-213 | On the default schedule, a Monday scan at 09:20 is late. |
| FaceScan.MalformedStartNeverEarlyOrLate | face-scan-page.tsx:202-213 | A start time or a clock that does not parse (NaN) never yields early or late. |
| FaceScan.AlertTitle | face-scan-page.tsx:282 | The title is the status name with its first letter upper-cased and the rest unchanged, followed by " Alert". |
| FaceScan.AlertTitles | face-scan-page.tsx:282 | The titles are "Late Alert", "Early Alert" and "Overtime Alert". |
| FaceScan.NotificationFor | face-scan-page.tsx:274-289 | A notification is raised iff the status is late, early or overtime. It needs action iff overtime. It carries the alert title, "name - message", the employee and `read` false. |
| FaceScan.MakeRecord | face-scan-page.tsx:296-307 | The record is late iff the classification is late, otherwise present. Exactly one of check-in and check-out is "-". A check-out has the time and "8h 00m"; a check-in has the time and "-". The record carries the employee's schedule and the classification. |
| FaceScan.Recognize | face-scan-page.tsx:154-171 | Recognition gives nobody on an empty roster or a failed recognition. Otherwise it gives an employee from the roster. |
| FaceScan.Recognized | face-scan-page.tsx:244-261 | A scan ends with an employee iff the frame grab, detection and recognition all succeed on a non-empty roster. That employee is on the roster. |
| FaceScan.ResultFor | face-scan-page.tsx:261-316 | A scan succeeds exactly when an employee was recognized. The result names that employee and the local time, and checks out exactly when the employee was checked in. It carries the classification of the employee's schedule. |
| FaceScan.RecordsFor | face-scan-page.tsx:296-312 | A scan stores one record iff an employee was recognized, none otherwise. |
| FaceScan.NotificationsFor | face-scan-page.tsx:274-293 | No employee raises no notification. A recognized employee raises exactly the notification `NotificationFor` gives for the classification of the scan, or none when it gives none. |
| FaceScan.ScanOutputsAgree | face-scan-page.tsx:260-307 | On success, the result names the recognized employee. The record belongs to that employee and is late iff the result is. A notification accompanies it iff the status is late, early or overtime. |
| FaceScan.Kiosk.constructor | face-scan-page.tsx:54-58 | The page starts with the stored roster and records, the camera off and no result. |
| FaceScan.Kiosk.StartScanning | face-scan-page.tsx:228-326 | With the camera off, it only starts the camera, or reports the camera error. With an empty roster, it only reports that error. Otherwise it ends not scanning. Its result is failure unless an employee was recognized. It appends exactly the scan's record and notification. The records stored before remain a prefix. |
| FaceScan.Kiosk.ScanFrame | face-scan-page.tsx:239-325 | With the camera on and a non-empty roster, scanning ends stopped. The result is the one for the recognized employee, or a failure. Records and notifications are appended only for a recognized employee. |
| FaceScan.Kiosk.RecordScan | face-scan-page.tsx:261-312 | A recognized employee gets the success result, the record of the scan is appended, and the notification is appended when there is one. |
| FaceScan.Kiosk.ResetScan | face-scan-page.tsx:328-331 | The result and the error are cleared. |
| FaceScan.Kiosk.OnUpdateAction | face-scan-page.tsx:65-70 | An `employees` message replaces the mirror wholesale. Any other kind is ignored. |
| FaceCapture.AfterFrame | face-capture.tsx:84-89 | A grabbed image is appended at the end and the count goes up by exactly one. A failed grab changes nothing. The count keeps equalling the number of images. |
| FaceCapture.Completion | face-capture.tsx:91-98 | The images are handed over iff an image was grabbed and the count reaches 3. They go over in capture order, with `captureCount` 3. |
| FaceCapture.Grabbed | face-capture.tsx:84-89 | A run of grabs yields at most one image per grab. |
| FaceCapture.GrabbedConcat | face-capture.tsx:86 | The images of two runs of grabs are those of the first run followed by those of the second. |
| FaceCapture.Replay | face-capture.tsx:84-89 | A run of grabs never lowers the count and only appends images, keeping those taken before. It keeps the count equal to the number of images. |
| FaceCapture.ReplayAppendsGrabbed | face-capture.tsx:84-89 | A run of grabs appends exactly the grabbed images, in order, and counts them. |
| FaceCapture.CompletesWhenCountReachesThree | face-capture.tsx:91-98 | From an empty start, a grab completes enrolment iff it grabs an image and at least two were grabbed before. It then hands over every image so far. |
| FaceCapture.CaptureOffered | face-capture.tsx:198 | The capture button is rendered while fewer than three images are taken. |
| FaceCapture.ResetOffered | face-capture.tsx:219 | The reset button is rendered once something is taken and fewer than three images are. |
| FaceCapture.CompletionWithdrawsButtons | face-capture.tsx:91-219 | Before completion, the grab that hands the bundle over withdraws both buttons. A successful grab that does not complete leaves the capture button offered. After a successful grab, the reset button is offered exactly when nothing was handed over. |
| FaceCapture.Widget.constructor | face-capture.tsx:15-20 | The widget starts with no images, count 0, nothing captured and nothing delivered. |
| FaceCapture.Widget.CaptureButtonShown | face-capture.tsx:198 | The capture button is rendered exactly when fewer than three images are held. |
| FaceCapture.Widget.ResetButtonShown | face-capture.tsx:219 | The reset button is never rendered without the capture button. |
| FaceCapture.Widget.CameraStarted | face-capture.tsx:37-57 | A granted camera becomes active. A refusal sets the camera error. |
| FaceCapture.Widget.BeginCapture | face-capture.tsx:75-78 | Nothing happens without an active camera. Otherwise a capture is pending and remembers the count and images it started from. Either way the capture button is then disabled. |
| FaceCapture.Widget.FinishCapture | face-capture.tsx:80-105 | A grabbed frame sets count and images as `AfterFrame` of the remembered values. It hands the bundle over on completion. A failed grab changes neither count nor images. Capturing ends in every case, and the capture button is enabled again while the camera is active. Before completion, a successful grab hands the bundle over exactly when it withdraws both buttons. |
| FaceCapture.Widget.ResetCapture | face-capture.tsx:108-112 | The count goes to 0, the images to empty and the preview to none. |

## Left out

- Transport: the socket.io server, CORS and `server.listen`, and the `app/api/socket/route.ts` wrapper. Sockets are identifiers; what a socket has been sent is a sequence of messages.
- Admin listeners: the admin panel's own `request-data` and `admin-action` listeners (admin-panel.tsx:99-119). The relay only ever emits `update-action`, so these never fire.
- Camera and canvas: starting the stream, grabbing a frame and encoding it. A frame is an optional string. Camera permission is a boolean input.
- Randomness: face detection, recognition, the employee drawn and the check-in/check-out choice (`Math.random`) are inputs. The drawn position is any natural number reduced modulo the roster's length.
- Asynchrony and timing:
  - `setTimeout` and the awaits inside `startScanning` are left out; a scan runs as one step. A roster update arriving during a scan's wait is not interleaved with it.
  - The capture widget's one-second wait is the split between `BeginCapture` and `FinishCapture`.
- Clock and identifiers: the current time, date, weekday and the local time string are inputs, and so are the `Date.now()` identifiers. A notification's identifier and timestamp, and the face bundle's timestamp, are not modelled.
- Storage and JSON: local storage, session storage and JSON are replaced by fields. The kiosk's initial roster and records are constructor arguments.
- Notification side effects: audio and the `CustomEvent` dispatch are left out. A dispatched notification is appended to `Kiosk.notifications`, and a delivered face bundle to `Widget.delivered`.
- Floating point: the attendance rate (admin-panel.tsx:329) and both `calculateWorkHours` (admin-panel.tsx:892-898, work-settings.tsx:56-62).
- Other files: all JSX, dialogs and rendering; `work-settings.tsx`, whose thresholds the scan rule never reads; `admin-login.tsx`, `app/page.tsx`, `app/setup/page.tsx` and `attendance-page.tsx`.
- Payload validation: a payload that is not an array, or a message without a `type`, is not modelled. Payloads are sequences.
- Text.ToLower: maps only the ASCII letters A–Z, where `toLowerCase` also maps other Unicode letters. `Text.Capitalize` likewise upper-cases only a–z.
- FaceScan.ClockMinutes: reads only unsigned leading digits. `parseInt`'s skipping of leading white space, its sign handling and its reading of a "0x" prefix as hexadecimal (the model reads it as 0) are not modelled, since the times involved are written as "HH:MM".
- FaceCapture.Widget.BeginCapture: requires that no capture is pending, because its only caller, the capture button, is disabled while one is.
