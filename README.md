# School management core, modelled in Dafny

This project models the rules at the heart of a school-management web application (Next.js API routes over MongoDB collections):

- **Timetable.** `POST /api/timetable` refuses a lesson slot that overlaps another slot of the same class, teacher or room in the same academic year, term and day. The slot collection carries three unique indexes. A teacher's weekly listing is sorted by day code and start time.
- **Grading.** `lib/grading.ts` has `getGrade`, GPA, the average score and the grade distribution. The report card (`lib/reportCardData.ts`) uses a second, stricter table (80/70/60/50).
- **Results.** Who sees which results, and how a teacher or admin enters one, once per exam subject and student.
- **Fees.** An admin creates a fee. A payment adds to the paid total and to the history and moves the status to `PARTIAL` or `PAID`.
- **Attendance.** A teacher marks a lesson for today; each record is an upsert keyed by slot, student and day.
- **Users.** The `pre("save")` hook strips the fields of other roles. `POST /api/users` creates a user and links a student to their parent.
- **Middleware.** Page access by role: redirects to `/login`, `/` or the role's own dashboard.
- **Learning materials.** A teacher lists, uploads, edits and deletes materials. Only the uploader may change or remove one.

Pure logic is written as functions with lemmas. Each collection a route writes to is a class: `SlotStore`, `ResultStore`, `FeeLedger`, `AttendanceBook`, `UserDirectory` and `MaterialLibrary`. Each method is proved against a pure specification function or states its new state outright.

Ids are strings and JSON bodies are records of optional fields. `Common.Present` is JavaScript truthiness of a string field (absent or `""` is falsy). Clock times are strings compared character by character, as MongoDB compares them. The caller's decoded session token, the current time, the ids the store assigns and the password hash are all parameters.

The files, one module each:

- `common.dfy`: roles, tokens, options.
- `strings.dfy`: string order, prefixes, ASCII lower-casing, clock times.
- `collections.dfy`: filter, and sorting as a permutation.
- `timetable_slot.dfy`: the slot document, the conflict relation and the indexes.
- `timetable.dfy`: the timetable route.
- `teacher_timetable.dfy`: the teacher's weekly listing.
- `grading.dfy`.
- `report_card.dfy`.
- `results.dfy`.
- `fees.dfy`.
- `attendance.dfy`.
- `users.dfy`.
- `middleware.dfy`.
- `learning_materials.dfy`.

## Model

| member | source | states |
|---|---|---|
| Common.ParseRole | models/User.ts:44-49 | accepts exactly the four role names of the enum, and returns the role whose name was given |
| Strings.ClockTimeOrder | models/TimeTableSlot.ts:61-69 | for zero-padded `HH:MM` times, string order agrees with minutes since midnight, in both directions |
| Strings.Lower | models/User.ts:34-40 | the lower-cased e-mail has the same length; each upper-case ASCII letter becomes the same letter in lower case, and every other character is kept |
| Strings.LowerIdempotent | models/User.ts:34-40 | lower-casing an already lower-cased e-mail changes nothing |
| SlotModel.ParseDay | models/TimeTableSlot.ts:54-59 | the `dayOfWeek` enum accepts exactly the six day codes |
| SlotModel.ParseTerm | models/TimeTableSlot.ts:79-84 | the `term` enum accepts exactly TERM_1, TERM_2 and TERM_3 |
| SlotModel.ParseType | models/TimeTableSlot.ts:45-50 | an absent `type` defaults to CLASS; otherwise only CLASS or EXAM is accepted |
| SlotModel.Validate | models/TimeTableSlot.ts:15-84 | a body becomes a slot exactly when every required field is present, every enum holds and `roomId` is not the empty string (which fails the ObjectId cast); the slot carries the body's values |
| SlotModel.ConflictsSymmetric | app/api/timetable/route.ts:28-35 | the overlap-and-shared-resource conflict does not depend on which slot was stored first |
| SlotModel.TouchingSlotsDoNotOverlap | app/api/timetable/route.ts:31-32 | a slot ending when another starts does not overlap it (half-open ranges) |
| SlotModel.OverlapOnTheClock | app/api/timetable/route.ts:31-32 | for clock times, the query's string overlap is overlap of the minute intervals |
| SlotModel.OtherScopeNeverConflicts | app/api/timetable/route.ts:28-30 | slots in different years, terms or days never conflict |
| SlotModel.RoomlessCollidesOnlyOnClassOrTeacher | app/api/timetable/route.ts:33-35 | when either slot has no room, only a shared class or teacher counts, from both sides |
| SlotModel.ConflictIgnoresTypeSubjectAndLock | app/api/timetable/route.ts:28-35 | type, subject and `locked` play no part in the conflict decision |
| SlotModel.AppendKeepsConflictFree | app/api/timetable/route.ts:37-57 | inserting only after the conflict query finds nothing keeps the timetable free of conflicts |
| SlotModel.RoomlessSlotsClashAsDeclared | models/TimeTableSlot.ts:131-143 | as declared, two room-less slots of different classes and teachers at the same hour clash on the room index though they do not conflict |
| SlotModel.RoomKeyClashRefinesDeclared | models/TimeTableSlot.ts:131-143 | the intended room index is the declared one with room-less slots exempt |
| SlotModel.KeyClashIsConflict | models/TimeTableSlot.ts:103-143 | every pair the (intended) unique indexes reject is a conflict, when both time ranges are non-empty |
| SlotModel.IndexesMissShiftedOverlap | models/TimeTableSlot.ts:103-126 | the indexes alone miss overlapping slots whose start times differ: the route's query is needed |
| SlotModel.InvertedRangeClashesWithoutConflict | models/TimeTableSlot.ts:61-69 | start and end times are not ordered by the schema: an empty range clashes on an index without conflicting |
| Timetable.QueryIsConflict | app/api/timetable/route.ts:28-35 | on a valid body, the Mongo conflict query matches a stored slot exactly when the two conflict |
| Timetable.QueryMatches | app/api/timetable/route.ts:28-35 | the `findOne` conflict filter against one stored slot; a body lacking the year, term, day, either time, or all of class, teacher and a truthy room matches nothing |
| Timetable.FindConflict | app/api/timetable/route.ts:28-42 | finds the first stored slot the query matches, or reports that none matches |
| Timetable.SlotStore.constructor | models/TimeTableSlot.ts:103-143 | an empty timetable is conflict free and satisfies the indexes |
| Timetable.SlotStore.Create | app/api/timetable/route.ts:24-66 | 409 when a conflict exists, 500 when validation fails, otherwise 201 with the validated slot appended; the timetable stays conflict free and within its indexes |
| Timetable.SlotStore.List | app/api/timetable/route.ts:69-83 | lists every stored slot; they are conflict free and satisfy the unique indexes |
| Timetable.SharedTeacherOverlapIsFound | app/api/timetable/route.ts:28-42 | any stored slot conflicting with a valid body makes the query find a conflict |
| Timetable.TeacherDoubleBookingRefused | app/api/timetable/route.ts:28-42 | with T1 teaching C1 on Monday 08:00-09:00, a request for C2 with T1 at 08:30-09:15 is found as a conflict, though class, subject and times differ |
| TeacherTimetable.DayNamesDistinct | app/api/teacher/timetable/route.ts:14-21 | `DAY_MAP` gives every day its own name |
| TeacherTimetable.DayCodeOrder | app/api/teacher/timetable/route.ts:41 | sorting on the day code is alphabetical (FRI, MON, SAT, THU, TUE, WED), not the order of the week |
| TeacherTimetable.DayCodeInjective | models/TimeTableSlot.ts:54-59 | distinct days have distinct codes |
| TeacherTimetable.DayThenStartIsTotalPreorder | app/api/teacher/timetable/route.ts:41 | the sort key (day code, then start time) is a total preorder |
| TeacherTimetable.TeacherSlots | app/api/teacher/timetable/route.ts:35-41 | exactly the caller's slots, as a permutation, sorted by day code then start time |
| TeacherTimetable.Format | app/api/teacher/timetable/route.ts:44-53 | each entry carries the slot's id, day name, times and type; the populated subject and class names, or "—" when missing; the populated room name, present exactly when the slot's room was populated |
| TeacherTimetable.WeeklyListing | app/api/teacher/timetable/route.ts:31-53 | 401 exactly without a teacher token; otherwise one formatted entry per slot of the caller, in order |
| Grading.BandUnique | lib/grading.ts:1-7 | on a descending table every score lies in exactly one letter band |
| Grading.GetGrade | lib/grading.ts:1-7 | the letter is the band the score falls in (75/65/55/45) and the points are that letter's, between 0 and 4 |
| Grading.GetGradeMonotone | lib/grading.ts:1-7 | a higher score never earns fewer grade points |
| Grading.GpaTotal | lib/grading.ts:8-12 | the total grade points lie between 0 and 4 per score |
| Grading.CalculateGpa | lib/grading.ts:8-12 | 0 for no scores, otherwise the mean grade points, between 0 and 4 |
| Grading.CalculateAverageScore | lib/grading.ts:13-17 | 0 for no scores, otherwise the mean score |
| Grading.ScoreTotalBounds | lib/grading.ts:13-17 | the score total lies between the count times the lowest and the count times the highest score |
| Grading.AverageWithinBounds | lib/grading.ts:13-17 | the average lies between the lowest and the highest score |
| Grading.Distribution.Increment | lib/grading.ts:18-33 | bumping a letter adds one to its counter and leaves the others |
| Grading.CountsSumToLength | lib/grading.ts:18-33 | the five per-letter counts add up to the number of scores |
| Grading.GpaTotalFromCounts | lib/grading.ts:8-33 | the GPA total is the points-weighted sum of the distribution's counts |
| Grading.GradeDistribution | lib/grading.ts:18-33 | each counter is the number of scores earning that letter, and the counters total the number of scores |
| ReportCard.ScoreToGrade | lib/reportCardData.ts:7-13 | the letter is the band on the 80/70/60/50 table and the points are that letter's |
| ReportCard.ScoreToGradeMonotone | lib/reportCardData.ts:7-13 | a higher score never earns fewer report-card points |
| ReportCard.ReportCardNeverAboveStoredGrade | lib/reportCardData.ts:7-13 | the report card never grades above `getGrade`, and at 75 they disagree (B against A) |
| ReportCard.MapResults | lib/reportCardData.ts:29-38 | one line per result in order, with its subject, score, report-card grade and the remarks or "" |
| ReportCard.LineGpaTotalBounds | lib/reportCardData.ts:40-41 | the points total of the lines lies between 0 and 4 per line |
| ReportCard.MeanGpa | lib/reportCardData.ts:40-41 | absent exactly for no lines; otherwise the mean of the lines' points, between 0 and 4 |
| ReportCard.BuildReportCardData | lib/reportCardData.ts:15-58 | throws "Student not found" or "Exam not found"; otherwise the card of the mapped lines, with a GPA absent exactly when there are no results and otherwise their mean |
| Results.VisibleResults | app/api/results/route.ts:14-71 | 403 exactly without a token; staff see every result newest first; a student sees exactly their own published results and a parent exactly the published ones, each as often as stored |
| Results.StudentViewWithinParentView | app/api/results/route.ts:46-68 | whatever a student is shown, a parent is shown too |
| Results.UnpublishedOnlyToStaff | app/api/results/route.ts:14-71 | an unpublished result reaches a caller exactly when the caller is an admin or a teacher |
| Results.Author | app/api/results/route.ts:78-83 | a teacher or an admin is accepted as author, under their own id; nobody else is |
| Results.Post | app/api/results/route.ts:75-128 | 403 for everyone else; 400 without the three ids or a score; 409 exactly when the id or the key is taken; otherwise the stored result with the `getGrade` letter and points, unpublished, entered by the caller, keeping results unique |
| Results.ZeroScoreIsStored | app/api/results/route.ts:87-106 | a score of 0 passes the presence check and is stored, graded F |
| Results.SecondEntryRefused | models/Result.ts:67-70 | a second result for the same exam, exam subject and student is refused with 409 |
| Results.ResultStore.constructor | models/Result.ts:67-70 | an empty collection has unique results |
| Results.ResultStore.Create | app/api/results/route.ts:75-128 | answers what `Post` answers and appends the document exactly when it is stored; results stay unique |
| Fees.NewFee | app/api/fees/route.ts:40-48 | a new fee is PENDING with nothing paid and an empty history, and carries the body's ids, amount and due date |
| Fees.NewFeeConsistent | app/api/fees/route.ts:40-48 | a new fee is consistent exactly when its amount is positive |
| Fees.NextStatus | app/api/fees/route.ts:86-90 | PAID once paid covers the amount; PARTIAL when something but not all is paid; otherwise unchanged |
| Fees.ApplyPayment | app/api/fees/route.ts:77-90 | a payment adds its amount to the paid total, appends itself to the history, sets the status as above and changes nothing else |
| Fees.PaymentKeepsTotal | models/Fee.ts:18-33 | the paid total stays equal to the sum of the history, whatever the payment |
| Fees.PaymentKeepsConsistent | models/Fee.ts:5-33 | a positive payment keeps a consistent fee consistent (total, positive payments, status that fits) |
| Fees.NegativePaymentKeepsPaid | app/api/fees/route.ts:65-90 | a negative amount passes the checks and can leave a fee PAID with less paid than due |
| Fees.Verify | lib/rbac.ts:37-57 | the role check grants exactly the callers holding that role |
| Fees.PutRefusesEveryoneAsWritten | app/api/fees/route.ts:57-61 | as written, the PUT guard refuses every caller |
| Fees.PutAdmitsStudentsAndParents | app/api/fees/route.ts:57-61 | the corrected guard lets through exactly students and parents |
| Fees.FeeLedger.constructor | models/Fee.ts:5-33 | an empty ledger is valid |
| Fees.FeeLedger.Create | app/api/fees/route.ts:25-51 | 403 for non-admins; 400 without a student, a class or a truthy amount; otherwise the new fee is stored under its id (500 if the id is taken) |
| Fees.FeeLedger.Pay | app/api/fees/route.ts:54-95 | under the corrected guard: 403, 400 without a fee id, a truthy amount or a method, 404 for an unknown fee, otherwise the fee after `ApplyPayment` is saved; the ledger stays valid |
| Attendance.UpsertAll | app/api/teacher/attendance/route.ts:25-43 | the `bulkWrite`, one upsert per record in order: no entry is removed, and entries of other lessons or other days are left as they were |
| Attendance.Upsert | app/api/teacher/attendance/route.ts:25-43 | the entry for the key gets the class and status, keeps its remarks and lock (or the defaults "" and false when new), and every other entry is unchanged |
| Attendance.UpsertAllKeys | app/api/teacher/attendance/route.ts:25-43 | after the bulk write there is an entry for each record's key and no other new key |
| Attendance.UpsertAllLeavesOthers | app/api/teacher/attendance/route.ts:25-43 | an entry no record names is left as it was |
| Attendance.LastMarkWins | app/api/teacher/attendance/route.ts:25-43 | when a student appears several times, the status of their last record is stored |
| Attendance.WrittenEntriesCarryClass | app/api/teacher/attendance/route.ts:25-43 | every record's entry exists afterwards and carries the lesson's class |
| Attendance.AttendanceBook.constructor | models/Attendance.ts:75 | the attendance collection starts empty |
| Attendance.AttendanceBook.MarkLesson | app/api/teacher/attendance/route.ts:8-46 | 401 without a teacher token, 404 for an unknown lesson, otherwise every record upserted in order under today's date |
| Users.RoleCleaned | models/User.ts:96-109 | the hook clears class and parent unless a student, subjects unless a teacher, children unless a parent; keeps the own role's fields; touches nothing else |
| Users.RoleCleanedIdempotent | models/User.ts:96-109 | running the hook twice is running it once |
| Users.RoleCleanMeansOwnFieldsOnly | models/User.ts:96-109 | the hook's output holds only its own role's fields, and such a document is exactly what the hook leaves alone |
| Users.UserDocument.constructor | models/User.ts:71-82 | a new document carries the given fields (phone included); `childrenIds` is an empty array, and class, parent and subjects are absent |
| Users.UserDocument.PreSave | models/User.ts:96-109 | the hook rewrites the document to its role-cleaned value |
| Users.LinkChild | app/api/users/route.ts:72-80 | the child is in the list afterwards; an existing list is kept as a prefix; a child already present is not added twice; no duplicates are introduced |
| Users.LinkChildIdempotent | app/api/users/route.ts:72-80 | linking the same child twice is linking once |
| Users.NewDocument | app/api/users/route.ts:50-69 | the document built from the body has a hashed password and a lower-cased e-mail, and holds only its role's fields |
| Users.AddUserKeepsValid | app/api/users/route.ts:69 | saving a clean user with a fresh id and a fresh e-mail keeps the collection valid |
| Users.Linked | app/api/users/route.ts:72-80 | the saved parent's children are its existing list with the child appended when absent (an absent list starts empty); the child is held exactly once; nothing else changes |
| Users.LinkKeepsValid | app/api/users/route.ts:72-80 | linking a child to a parent keeps the collection valid |
| Users.UserDirectory.constructor | models/User.ts:34-40 | an empty collection is valid |
| Users.UserDirectory.Create | app/api/users/route.ts:27-83 | 400 exactly when a required field is missing; 201 exactly when the role is in the enum, neither the lower-cased e-mail nor the id is taken, and no student's parent id fails the ObjectId test; a failed save changes nothing; an invalid parent id answers 500 after the built user was saved and nothing else; on 201 the built user is saved and a student's existing parent is linked |
| Users.NoDuplicatesCountsOnce | models/User.ts:77-82 | in a list without duplicates a present child occurs exactly once |
| Middleware.AreaOf | middleware.ts:38-49 | a path is in the area whose prefix it starts with, or in none |
| Middleware.Decide | middleware.ts:10-53 | public paths pass; without a token every other path goes to `/login`; every redirect targets `/login`, `/` or a dashboard |
| Middleware.RootGoesHome | middleware.ts:24-35 | `/` sends each role to its own dashboard |
| Middleware.AreaTurnsAwayOthers | middleware.ts:38-49 | a protected area sends every other role, and an unknown role, back to `/` |
| Middleware.OwnAreaPasses | middleware.ts:24-52 | a session in its own area, or on a path outside the four areas, is let through; a token whose role is none of the four passes on `/` too |
| Middleware.AdministratorIsAdminArea | middleware.ts:38-49 | the area test is a prefix test: `/administrator` belongs to the admin area |
| Middleware.RedirectsSettle | middleware.ts:10-53 | following a redirect reaches a page that is let through within one more redirect |
| Middleware.Route | middleware.ts:55-63 | paths outside the matcher are never intercepted; the others get the middleware's decision |
| Middleware.MatcherMakesAreasExact | middleware.ts:55-63 | the matcher does not cover `/administrator`, so no role is turned away from it |
| Middleware.NoSessionMeansLogin | middleware.ts:19-21 | without a session every intercepted page goes to `/login` |
| Collections.NewestFirst | app/api/results/route.ts:27 | `sort({ createdAt: -1 })`: a permutation of the documents with non-increasing `createdAt` |
| LearningMaterials.List | app/api/teacher/learning-materials/route.ts:7-31 | refused exactly to non-teachers; all materials, or exactly those of the given class, newest first |
| LearningMaterials.ListedBelongToClass | app/api/teacher/learning-materials/route.ts:18-22 | every material listed under a class filter belongs to that class and is stored |
| LearningMaterials.TruthyOr | app/api/teacher/learning-materials/route.ts:92-95 | the new value when truthy, the current one otherwise |
| LearningMaterials.Merged | app/api/teacher/learning-materials/route.ts:92-95 | title, description, file and type take the edit's truthy values; nothing else changes |
| LearningMaterials.MergedLaws | app/api/teacher/learning-materials/route.ts:92-95 | an empty edit changes nothing, and applying an edit twice is applying it once |
| LearningMaterials.IndexOf | app/api/teacher/learning-materials/route.ts:83-85 | finds the position of the material with the id, or reports that none has it |
| LearningMaterials.MaterialLibrary.constructor | models/Material.ts:4-26 | the library starts empty with unique ids |
| LearningMaterials.MaterialLibrary.Upload | app/api/teacher/learning-materials/route.ts:35-61 | 403 for non-teachers, 400 without title, file or class, otherwise a PDF owned by the caller is appended |
| LearningMaterials.MaterialLibrary.Update | app/api/teacher/learning-materials/route.ts:64-100 | 403, 400 without an id, 404 for an unknown id, 401 for another teacher's material, 500 for a type outside the enum, otherwise the merged material replaces the old one |
| LearningMaterials.MaterialLibrary.Delete | app/api/teacher/learning-materials/route.ts:103-135 | 403, 400, 404, 401 as for PUT; otherwise exactly that material is removed and the others stay in order |
| LearningMaterials.RemoveAtKeepsOthers | app/api/teacher/learning-materials/route.ts:132 | removing a material keeps exactly the materials with other ids, and ids stay unique |

## Left out

- Database plumbing (`connectDB`, `populate`, `lean`, `select`) and HTTP handling are not modelled. Each route is a function or method from its parsed body and the caller's decoded token to an outcome and a status code.
- Token verification (`lib/auth.ts`, JWT signing and cookies) is not part of this model. The caller arrives as `Option<Token>`.
- Password hashing with bcrypt is a parameter `hash`: an opaque function.
- The clock and the ids the store assigns are parameters (`now`, `today`, `newId`). Dates are opaque natural numbers.
- Concurrency is not modelled. Two requests racing between the conflict query and the insert are not covered, so nothing is claimed about races.
- Grading.CalculateGpa: omits the final `toFixed(2)` rounding to a number, because decimal rounding of reals is outside the model. The exact mean is proved instead.
- Grading.CalculateAverageScore: omits the final `toFixed(2)` rounding, for the same reason.
- ReportCard.BuildReportCardData: omits the final `toFixed(2)` rounding. The NaN that the mean of no results produces is modelled as an absent GPA.
- ReportCard.BuildReportCardData: the names populated through `examSubjectId` are taken as given. A result whose reference fails to populate (a throw in the source) is not modelled.
- A malformed ObjectId that makes a `findById`, a query, a `create` or a `save` throw a cast error (a 500) is not modelled. An example is a malformed `schoolId` or student `classId` on `user.save()` in the users POST, which the model answers with 201. There are two exceptions: the explicit `isValid` test on a student's `parentId`, and an empty `roomId` in a timetable create, which `SlotModel.Validate` rejects.
- Users.NewDocument: the `trim` on the name and Unicode lower-casing are not modelled. Lower-casing is ASCII only.
- Strings.Lower: an ASCII approximation of the `lowercase` setter (JavaScript's `toLowerCase`). Non-ASCII capitals such as 'É' are kept where the setter lowers them, and the length is always kept where `toLowerCase` can lengthen a string ('İ' becomes two code units). The e-mail-taken test in Users.UserDirectory.Create inherits this gap.
- Users.UserDirectory.Create: `isValid` is modelled for 24-character hexadecimal strings only; its 12-character form is left out.
- Collections.NewestFirst: the order among documents with equal `createdAt` is left open, as the store leaves it.
- Attendance.AttendanceBook.MarkLesson: does not model `markedBy` or `teacherId`, since the upsert does not write them. A record status outside the enum is not modelled: the source writes it as given, since an `updateOne` in a bulk write does not run the enum validator.
- Results.Post: a `null` or non-numeric score, and the 500 "Failed to save result" it or any other non-duplicate save error leads to, are not modelled; the score is a real when present.
- The `GET` routes of users and fees are not part of this model: they only list documents.
- A role outside the four is modelled only in the middleware, which reads the raw role string. The other routes see a `Role`.
- Fees.FeeLedger.Pay: models the corrected guard (see Findings); the route as written answers 403 to everyone.
- Timetable.SlotStore.Create: the room index is modelled as intended, with room-less slots exempt (see Findings).

## Findings

| source | as written | input that shows it | evidently intended | confidence | as-written member | corrected member |
|---|---|---|---|---|---|---|
| app/api/fees/route.ts:57-61 | `if (studentCheck && parentCheck)` refuses when both results are truthy; each is either a 403 response object or a token, so both are always truthy | any caller, e.g. a student token: `verifyStudent` returns the token, `verifyParent` returns a 403 response, both truthy, so 403 | refuse only when both checks failed, so that students and parents may pay | high, not executed | Fees.PutRefusesEveryoneAsWritten | Fees.PutAdmitsStudentsAndParents |
| models/TimeTableSlot.ts:131-143 | the room index is sparse but compound; a sparse compound index leaves out only documents lacking every indexed field, so room-less slots are indexed under a null room | two room-less slots for classes C1 and C2 with teachers T1 and T2, both MON 08:00-09:00 in the same year and term: no conflict, but the second insert fails with a duplicate key | exempt room-less slots from the room index ("allow null rooms") | medium, not executed | SlotModel.RoomlessSlotsClashAsDeclared | SlotModel.KeyClashIsConflict |
