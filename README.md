# FIEI mobile app: client rules and edge functions in Dafny

The FIEI app is a React Native client for students and professors of a
faculty, over a hosted relational backend. Students see their courses, grades
and attendance. Professors record grades and attendance. Two edge functions,
`auth` and `academic`, serve the same operations over HTTP. This project
models the parts of the app that decide something:

- **Registration and login screens.** The form checks fill an error map field
  by field. They report success exactly when the map stays empty, and the
  screens call `register` or `login` only after a clean check.
- **Birth-date picker.** It seeds its day, month and year from a `yyyy-mm-dd`
  value with `split('-')` and `parseInt`. It offers the days of the selected
  month as JavaScript's `Date` computes them and a descending range of years.
  It confirms a zero-padded `yyyy-mm-dd` string and shows it as `dd/mm/yyyy`.
- **Grade and attendance writes.** Both the client hook `useSupabaseData` and
  the `academic` function write the same way: they resolve exactly one
  enrollment from a student code, a course code and a professor id, and fail
  closed when there is none (the intended join of their queries; see
  "Left out"). A grade write then updates or inserts one grade
  row with one component. An attendance write always appends a mark. The
  tables are an in-memory `Store` class.
- **Session provider.** `AuthProvider` holds `user`, `isLoading` and the
  `isMounted` guard, and changes them on auth events, `loadUserData`, `login`,
  `register` and `logout`.
- **Edge functions.** Each dispatches on path and method to fixed status
  codes. The `auth` function shapes the login user and registers in steps,
  deleting the created account when a later insert fails.

The backend is never called. Every answer it could give is a parameter of
the operation that receives it: a query result, an error message, a sign-in
answer. Each operation therefore covers every answer the backend can give.
The current year, the timestamp written as the last connection and the
picker's `value` are parameters too.

Modules, one file each:

| File | Module | What it holds |
|---|---|---|
| `wrappers.dfy` | `Wrappers` | `Option` |
| `database.dfy` | `Database` | row shapes and query results |
| `js_string.dfy` | `JsString` | `trim`, `split`, `padStart`, integer `toString` and `parseInt` on `seq<char>` |
| `registration.dfy` | `Registration` | the registration screen |
| `login.dfy` | `Login` | the login screen |
| `date_picker.dfy` | `DatePicker` | the birth-date picker |
| `academic_store.dfy` | `AcademicStore` | the enrollment, grade and attendance tables and the two write sequences |
| `data_hook.dfy` | `DataHook` | the client data hook |
| `academic_function.dfy` | `AcademicFunction` | the `academic` edge function |
| `auth_context.dfy` | `AuthContext` | the session provider |
| `auth_function.dfy` | `AuthFunction` | the `auth` edge function |

## Model

| member | source | states |
|---|---|---|
| JsString.TrimEmptyIffBlank | app/registro.tsx:69 | `s.trim()` is empty exactly when every character of `s` is ECMAScript white space or a line terminator |
| JsString.TrimIsEmpty | hooks/useSupabaseData.ts:139 | `!s.trim()` decides exactly whether `s` is blank, as the form checks and the course search use it |
| JsString.SplitJoin | components/DatePicker.tsx:60 | splitting at `-` a join of dash-free pieces gives back exactly those pieces |
| JsString.JoinSplit | components/DatePicker.tsx:60 | joining the pieces of `s.split(sep)` with `sep` gives `s` back |
| JsString.ParsePadded | components/DatePicker.tsx:53 | `parseInt` of a zero-padded decimal rendering of `n` is `n` |
| JsString.ParseIntToString | components/DatePicker.tsx:29-31 | `parseInt` reads back the plain decimal rendering of every integer `n`, negative ones included; in JavaScript that rendering is `String(n)` only while the absolute value of `n` is below 10^21 |
| Registration.ValidateForm | app/registro.tsx:66-124 | a field has an error exactly when its rule gives a message, and the entry is that message; the result is true iff the error map is empty iff the form is `Acceptable` |
| Registration.AcceptableIffNoError | app/registro.tsx:122-123 | the form passes field by field exactly when no field earns a message |
| Registration.ErrorsUpToEntries | app/registro.tsx:67-120 | after the first `k` checks a field has an entry exactly when it was checked and earned a message, and every entry is the message of its own rule |
| Registration.ErrorFieldsOfRole | app/registro.tsx:103-120 | only the common fields and those of the chosen role can get an error; `telefono` and `genero` never do |
| Registration.CheckEmail | app/registro.tsx:69-73 | blank e-mail gives "requerido", a non-blank one without `@` gives "inválido", and at most one message is set |
| Registration.CheckPassword | app/registro.tsx:75-79 | a blank password gives "requerida"; otherwise a length below 6 on the untrimmed string gives the length message |
| Registration.CheckDni | app/registro.tsx:85-89 | a blank DNI gives "requerido"; otherwise a length other than 8 gives the length message; there is no digit check |
| Registration.CheckRequired | app/registro.tsx:91-101 | a blank field gets its message and every other entry stays as it was |
| Registration.CheckOptionalRequired | app/registro.tsx:104-118 | a missing or blank optional field gets its message and every other entry stays as it was |
| Registration.CheckCommonFields | app/registro.tsx:67-101 | the map after the seven common checks, including the independent password mismatch check, is the reference map of the first seven fields |
| Registration.CheckRoleFields | app/registro.tsx:103-120 | a student gets only the code and school checks, with 0 counting as no school; a professor gets only the code, speciality and degree checks |
| Registration.CheckStudentFields | app/registro.tsx:103-109 | a student's code is required, and a missing school or school 0 is reported as no school |
| Registration.CheckProfessorFields | app/registro.tsx:110-119 | a professor's code, speciality and degree are each required |
| Registration.StudentSkipsProfessorFields | app/registro.tsx:103-110 | a student's form earns nothing for the professor fields |
| Registration.ProfessorSkipsStudentFields | app/registro.tsx:103-110 | a professor's form earns nothing for the student fields |
| Registration.UncheckedTail | app/registro.tsx:66-124 | the phone and the gender never add an entry |
| Registration.IndexOf | app/registro.tsx:66-124 | every field has a position in the order in which the fields are checked |
| Registration.ToRegisterData | app/registro.tsx:128 | `register` receives every field of the form, with the phone and gender present; the form is recovered from it and its confirmation |
| Registration.AcceptedFormSendsCompleteData | app/registro.tsx:66-128 | an accepted form sends an e-mail with `@`, a password of at least 6 characters, an 8-character DNI, non-blank names and birth date, and its role's fields present and non-blank (a student's school not 0) |
| Registration.RegistroScreen.constructor | app/registro.tsx:38-53 | the empty form with gender `M` and role `estudiante`, no errors, no verification message |
| Registration.RegistroScreen.SetForm | app/registro.tsx:38 | the form is replaced and nothing else changes |
| Registration.RegistroScreen.HandleRegister | app/registro.tsx:125-149 | `register` receives the form's data iff the form is acceptable, iff the stored error map is empty; the stored map holds each field's own message; after the call, a success needing verification shows the message for the form's e-mail, another success raises the success alert, a failure raises the error alert, and the alerts leave the verification state as it was |
| Login.ValidateLogin | app/login.tsx:24-39 | only `email` and `password` can get an error; the e-mail rule is the registration's; the password only has to be non-blank; the result is true iff the map is empty |
| Login.RegisteredPassesLogin | app/login.tsx:27-35 | every e-mail and password the registration accepts also passes the login check |
| Login.ShortPasswordOnlyFailsRegistration | app/login.tsx:33-35 | a short non-blank password passes the login check but fails the registration |
| Login.LoginScreen.constructor | app/login.tsx:18-20 | empty e-mail, password and errors |
| Login.LoginScreen.SetEmail | app/login.tsx:18 | the e-mail changes and nothing else does |
| Login.LoginScreen.SetPassword | app/login.tsx:19 | the password changes and nothing else does |
| Login.LoginScreen.HandleLogin | app/login.tsx:41-71 | nothing is submitted on an invalid form; the tabs open exactly when the form is valid and `login` answered true; the error is shown exactly when the form is valid and `login` answered false; the stored map holds the e-mail's own message exactly when the e-mail rule fails and `PasswordRequired` exactly when the password is blank, and no other key |
| DatePicker.Part | components/DatePicker.tsx:60-61 | an element of the split that exists is returned unchanged |
| DatePicker.FormatDate | components/DatePicker.tsx:53 | the confirmed string is never empty |
| DatePicker.SelectorText | components/DatePicker.tsx:74-76 | the placeholder for an empty value, the `dd/mm/yyyy` text otherwise |
| DatePicker.NoDashInPadded | components/DatePicker.tsx:53 | a zero-padded rendering of a non-negative number has no dash |
| DatePicker.SplitOfFormat | components/DatePicker.tsx:53 | the confirmed string splits at its dashes into the year, the padded month and the padded day |
| DatePicker.ParseTwoDigits | components/DatePicker.tsx:29-30 | `parseInt` reads a two-digit padded number back |
| DatePicker.InitialDateOfFormat | components/DatePicker.tsx:28-32 | opening the picker on a confirmed date of non-negative numbers restores the same day, month and year |
| DatePicker.DisplayOfFormat | components/DatePicker.tsx:58-62 | a confirmed date is shown as padded day, padded month and year, separated by `/` |
| DatePicker.DisplayOfDashless | components/DatePicker.tsx:58-62 | a value without a dash is shown with "undefined" for the day and the month |
| DatePicker.MonthLength | components/DatePicker.tsx:39-41 | every month has 28 to 31 days, and February has 29 exactly in a leap year |
| DatePicker.DaysInMonth | components/DatePicker.tsx:39-41 | NaN exactly when the month or the year is NaN, and otherwise 28 to 31 |
| DatePicker.DaysInMonthGregorian | components/DatePicker.tsx:39-41 | for months 1 to 12 the day count is that month's Gregorian length, with years 0 to 99 read as 1900 to 1999 |
| DatePicker.DaysInMonthFolds | components/DatePicker.tsx:39-41 | month 13 is January of the next year and month 0 is December of the previous year |
| DatePicker.TwoDigitYears | components/DatePicker.tsx:40 | February of year 0 has 28 days, like February 1900, while February 2000 has 29 |
| DatePicker.DayOptions | components/DatePicker.tsx:106 | the offered days are exactly 1 to the day count, and none for NaN |
| DatePicker.Reversed | components/DatePicker.tsx:49 | `reverse()` keeps the length and mirrors every position |
| DatePicker.GenerateYears | components/DatePicker.tsx:43-50 | 66 years, strictly descending from `currentYear - 15`, containing exactly the years from `currentYear - 80` to `currentYear - 15` |
| DatePicker.Picker.constructor | components/DatePicker.tsx:27-32 | the selection is seeded from `value` and the modal is closed |
| DatePicker.Picker.Open | components/DatePicker.tsx:70 | pressing the selector opens the modal and keeps the selection |
| DatePicker.Picker.Cancel | components/DatePicker.tsx:87 | closing without confirming keeps the selection |
| DatePicker.Picker.PickDay | components/DatePicker.tsx:113 | an offered day replaces the day only |
| DatePicker.Picker.PickMonth | components/DatePicker.tsx:137 | the month at `index` becomes month `index + 1`, and the day is kept |
| DatePicker.Picker.PickYear | components/DatePicker.tsx:161 | the year is replaced, and the day is kept |
| DatePicker.Picker.Confirm | components/DatePicker.tsx:52-56 | the string handed on is the formatted selection, and the modal closes |
| DatePicker.DayIsNotClamped | components/DatePicker.tsx:113 | a kept day 31 in February confirms as "2001-02-31" although that February has 28 days |
| AcademicStore.ColumnFor | hooks/useSupabaseData.ts:240-241 | `parcial` selects the midterm, `final` the final exam and every other value the homework column |
| AcademicStore.MatchingEnrollments | hooks/useSupabaseData.ts:212-227 | the selected rows are exactly the enrollments of the coded student in a section of the course taught by the professor |
| AcademicStore.Resolve | hooks/useSupabaseData.ts:227-229 | the lookup succeeds exactly when one enrollment matches |
| AcademicStore.ResolveIsTheUniqueMatch | hooks/useSupabaseData.ts:212-229 | a resolved id belongs to a matching enrollment, and every matching enrollment has that id |
| AcademicStore.NoMatchFails | hooks/useSupabaseData.ts:229 | with no matching enrollment the lookup fails |
| AcademicStore.UniqueMatchResolves | hooks/useSupabaseData.ts:212-229 | when exactly one enrollment matches, the lookup resolves to that enrollment's id |
| AcademicStore.SingleMatchSelected | hooks/useSupabaseData.ts:212-227 | when exactly the row at `i` matches, the lookup selects that row alone |
| AcademicStore.NoMatchSelectsNothing | hooks/useSupabaseData.ts:212-227 | a table without a match selects no row |
| AcademicStore.FirstGrade | hooks/useSupabaseData.ts:232-236 | the position found holds a grade row of the enrollment |
| AcademicStore.NoGradeRow | hooks/useSupabaseData.ts:232-236 | a count of zero means no grade row of the enrollment exists |
| AcademicStore.AtMostOneGradeRow | hooks/useSupabaseData.ts:232-236 | when no enrollment has two grade rows, each has at most one |
| AcademicStore.ExistingGrade | hooks/useSupabaseData.ts:232-236 | exactly one grade row is found when the lookup does not fail and the enrollment has exactly one row; a failed lookup reads as none |
| AcademicStore.Updated | hooks/useSupabaseData.ts:238-252 | an update sets the chosen component, the remark and the recording professor, and keeps the id, the enrollment and the two other components |
| AcademicStore.Inserted | hooks/useSupabaseData.ts:238-257 | an inserted row has only the chosen component set |
| AcademicStore.UpsertKeepsSingleGrade | hooks/useSupabaseData.ts:246-258 | a write whose lookup succeeds keeps at most one grade row per enrollment and leaves one for the written enrollment |
| AcademicStore.UpsertTouchesOneEnrollment | hooks/useSupabaseData.ts:246-258 | a write changes no grade row of another enrollment and adds at most one row, the inserted one |
| AcademicStore.UpdatedById | supabase/functions/academic/index.ts:314-319 | `.update(...).eq('id', id)` writes every row with that id and leaves the others |
| AcademicStore.UpdateByIdIsByPosition | supabase/functions/academic/index.ts:299-319 | when grade ids are distinct, updating by the found row's id changes exactly that row |
| AcademicStore.LookupFailureDuplicates | hooks/useSupabaseData.ts:232-236 | a failing existing-grade lookup inserts a second row for an enrollment that already has one |
| AcademicStore.AppendedAttendance | hooks/useSupabaseData.ts:302-310 | a mark keeps every earlier row and adds one row with the request's fields |
| AcademicStore.RepeatedMarkAddsTwoRows | hooks/useSupabaseData.ts:302-310 | two identical marks give two rows |
| AcademicStore.Store.constructor | types/database.ts:58-107 | empty grade and attendance tables over the given students, sections and enrollments |
| AcademicStore.Store.UpsertGrade | supabase/functions/academic/index.ts:270-325 | with no single enrollment nothing changes; a failed write changes nothing; otherwise the grade table is the upsert for the resolved enrollment, the found row updated by its id; grade ids stay distinct and below the counter; the other tables never change |
| AcademicStore.Store.AppendAttendance | supabase/functions/academic/index.ts:356-393 | with no single enrollment or a failed insert nothing changes; otherwise exactly one mark is appended; the other tables never change |
| DataHook.SemestersNewestFirst | hooks/useSupabaseData.ts:9 | the five offered terms, from the first term of 2025 down to the first of 2023, are consecutive and newest first: each is the term just before the previous one |
| DataHook.CourseOf | hooks/useSupabaseData.ts:46-54 | a missing section gives id 0 and empty name, course code and term; present columns are copied |
| DataHook.GradeViewOf | hooks/useSupabaseData.ts:89-92 | every grade column is kept and `codigo_curso` is added, empty when the section is missing |
| DataHook.AttendanceViewOf | hooks/useSupabaseData.ts:349-356 | the mark's own columns are copied; the course code and name are undefined when the section or the course is missing |
| DataHook.Listed | hooks/useSupabaseData.ts:45-57 | an error gives `[]`, otherwise one mapped row per returned row |
| DataHook.SingleRow | hooks/useSupabaseData.ts:189-197 | the student record exactly when one row has the code, `null` otherwise |
| DataHook.GradeWriteOf | hooks/useSupabaseData.ts:238-244 | the write sets the component `tipo_nota` selects, the remark and the professor |
| DataHook.CourseFilters | hooks/useSupabaseData.ts:156-160 | the school filter is added iff `escuelaId` is not 0, and the untrimmed text filter always |
| DataHook.Hook.constructor | hooks/useSupabaseData.ts:7 | `isLoading` starts false |
| DataHook.Hook.GetUserCourses | hooks/useSupabaseData.ts:11-61 | `[]` on error, otherwise one course per enrollment row; `isLoading` ends false |
| DataHook.Hook.GetStudentGrades | hooks/useSupabaseData.ts:63-99 | `[]` on error, otherwise each grade row with its course code; `isLoading` ends false |
| DataHook.Hook.GetProfessorCourses | hooks/useSupabaseData.ts:101-136 | `[]` on error, otherwise the rows as returned; `isLoading` ends false |
| DataHook.Hook.SearchCourses | hooks/useSupabaseData.ts:138-171 | a blank query sends nothing, answers `[]` and leaves `isLoading` alone; otherwise the school filter is added iff `escuelaId` is not 0 and the text filter always, and `isLoading` ends false |
| DataHook.Hook.SearchStudentByCode | hooks/useSupabaseData.ts:173-198 | the single student with the code, or `null` |
| DataHook.Hook.GetStudentAttendances | hooks/useSupabaseData.ts:322-361 | `[]` on error, otherwise each mark with its course |
| DataHook.Hook.GetEnrolledStudents | hooks/useSupabaseData.ts:363-388 | `[]` on error, otherwise the rows as returned |
| DataHook.Hook.InsertGrade | hooks/useSupabaseData.ts:200-268 | true exactly when one enrollment matched and the write succeeded; the grade table changes only then, as the upsert; no other table changes; `isLoading` ends false |
| DataHook.Hook.RegisterAttendance | hooks/useSupabaseData.ts:270-320 | true exactly when one enrollment matched and the insert succeeded, which appends one mark; no other table changes; `isLoading` ends false |
| AcademicFunction.Param | supabase/functions/academic/index.ts:33-34 | `searchParams.get` is the parameter's value when present and `null` otherwise |
| AcademicFunction.RouteOfFollowsEndpoints | supabase/functions/academic/index.ts:32-458 | the chain of path and method tests routes exactly the eight endpoints, each to its handler, and everything else to "Not found" |
| AcademicFunction.SearchFilters | supabase/functions/academic/index.ts:192-198 | the school filter is added iff `escuela_id` is a non-empty string (so "0" counts), and the text filter iff `query` is non-empty |
| AcademicFunction.ListResponse | supabase/functions/academic/index.ts:64-81 | 400 with the error's message on a failed query, 200 with the rows otherwise |
| AcademicFunction.SearchStudentResponse | supabase/functions/academic/index.ts:241-256 | 404 "Student not found" unless exactly one student has the code |
| AcademicFunction.SearchStudentHidesTheError | supabase/functions/academic/index.ts:241-249 | a query failure is 404 "Student not found" for search-student but 400 with its message for a list |
| AcademicFunction.WriteResponse | supabase/functions/academic/index.ts:288-342 | 404 "Enrollment not found" iff no single enrollment, 400 with the message iff the write failed, 200 with the success message iff written |
| AcademicFunction.Serve | supabase/functions/academic/index.ts:10-469 | OPTIONS answers `ok` first; each route answers as its handler does; an unmatched pair is 404 "Not found"; a body that fails to parse is 500; only the two POST routes change the tables, and never the student, section or enrollment tables; the course search returns the school filter iff `escuela_id` is truthy and the text filter iff `query` is, and no other route adds a filter |
| AcademicFunction.SaveGradeHandler | supabase/functions/academic/index.ts:260-343 | the enrollment is checked first and 404 writes nothing; the response follows the write's outcome; only the grade table changes, and only on 200, as the upsert |
| AcademicFunction.RecordAttendanceHandler | supabase/functions/academic/index.ts:346-411 | the same enrollment check; on 200 exactly one mark is appended; no other table changes |
| AuthContext.LoadedUser | contexts/AuthContext.tsx:96-182 | no user when the profile query fails or finds nothing; otherwise the profile's columns, with the student's code and school only for a student whose row was found, and the professor's code only for a professor whose row was found; a failing role lookup keeps the user |
| AuthContext.RegisterOutcome | contexts/AuthContext.tsx:248-330 | success exactly when sign-up returned a user and both inserts succeeded; on success `needsVerification` is true iff the user has no confirmation date |
| AuthContext.AuthProvider.constructor | contexts/AuthContext.tsx:34-36 | no user, loading, not mounted |
| AuthContext.AuthProvider.Mount | contexts/AuthContext.tsx:39 | the mounted guard is raised and nothing else changes |
| AuthContext.AuthProvider.Unmount | contexts/AuthContext.tsx:73-76 | the mounted guard is lowered and nothing else changes |
| AuthContext.AuthProvider.LoadUserData | contexts/AuthContext.tsx:96-182 | when mounted, the user becomes the loaded user; when not, nothing changes |
| AuthContext.AuthProvider.OnAuthStateChange | contexts/AuthContext.tsx:45-71 | when not mounted nothing changes; otherwise `SIGNED_OUT` clears the user, `SIGNED_IN` of an unconfirmed user clears it without loading, a confirmed one loads it, other events keep it, and loading ends |
| AuthContext.AuthProvider.CheckSession | contexts/AuthContext.tsx:79-94 | a confirmed existing session loads the user, and loading ends, when mounted |
| AuthContext.AuthProvider.Login | contexts/AuthContext.tsx:184-229 | false exactly on a sign-in error or an unconfirmed user, with the user unchanged; a confirmed user is loaded when mounted; a sign-in with no user answers true and leaves the user as it was; loading ends false |
| AuthContext.AuthProvider.Register | contexts/AuthContext.tsx:231-335 | the result is `RegisterOutcome` of the three answers; the user is untouched; loading ends false when mounted |
| AuthContext.AuthProvider.Logout | contexts/AuthContext.tsx:359-393 | when mounted the user ends cleared and loading false, whatever sign-out answers |
| AuthFunction.LoginUser | supabase/functions/auth/index.ts:92-101 | the profile's columns, the code and school of the first student row and the code of the first professor row, each undefined when there is no such row |
| AuthFunction.LoginUserAgreesWithClient | supabase/functions/auth/index.ts:92-101 | for a user with only its own role's rows, the function's login user is the client's loaded user |
| AuthFunction.ServerIgnoresRole | supabase/functions/auth/index.ts:98-100 | a professor with a student row gets a student code from the function but not from the client |
| AuthFunction.LoginResponse | supabase/functions/auth/index.ts:56-117 | 401 "Invalid credentials" iff sign-in fails, 404 "User data not found" iff the lookup fails, 200 with the shaped user and the session otherwise |
| AuthFunction.StageOf | supabase/functions/auth/index.ts:124-210 | where registration stops: at `createUser`, at the profile insert, at the role insert (only for the two known roles), or not at all |
| AuthFunction.RemoveId | supabase/functions/auth/index.ts:158 | `deleteUser` leaves every other account and not the deleted one |
| AuthFunction.RemoveCreated | supabase/functions/auth/index.ts:158 | deleting a freshly created account restores the accounts as they were |
| AuthFunction.RegisterResponse | supabase/functions/auth/index.ts:130-220 | 200 with the created id exactly when registration completes, 400 with the failing step's message otherwise |
| AuthFunction.CreateFailureWritesNothing | supabase/functions/auth/index.ts:130-138 | a failed `createUser` leaves the accounts and the profiles as they were |
| AuthFunction.FailureRemovesAccount | supabase/functions/auth/index.ts:156-209 | a failure after the account was created leaves the accounts as they were |
| AuthFunction.RoleFailureLeavesProfile | supabase/functions/auth/index.ts:178-209 | when the role insert fails, the profile row stays without an auth account |
| AuthFunction.CompletedStudentIsConsistent | supabase/functions/auth/index.ts:169-220 | a completed student registration leaves the account, its profile row and its student row under the created id |
| AuthFunction.AuthService.constructor | types/database.ts:1-31 | no accounts, empty `usuarios`, `estudiantes` and `profesores` tables and no last connection |
| AuthFunction.AuthService.Login | supabase/functions/auth/index.ts:47-118 | the response is `LoginResponse`; only a 200 records the last connection of the user; no other table changes |
| AuthFunction.AuthService.Register | supabase/functions/auth/index.ts:120-221 | the response and the accounts, profiles, student rows and professor rows after it follow the stage where registration stopped |
| AuthFunction.AuthService.Serve | supabase/functions/auth/index.ts:32-240 | OPTIONS answers `ok`; the two POST routes answer and change the tables exactly as their handlers do (the last connection only on a 200 login, the four tables only on register); a body that fails to parse is 500; everything else is 404 "Not found" and changes nothing |

## Left out

- Rendering: the JSX, styles, alerts' buttons, router navigation and the verification message layout. Only which alert or screen follows is modelled.
- `resendVerification` in `contexts/AuthContext.tsx` and the screens' resend buttons: a single call into the auth service whose answer is passed on unchanged.
- The backend query engine. Nested `.eq` on embedded resources, `!inner` joins, `ilike` and `.order` are not modelled. Enrollment resolution is a predicate over the student, section and enrollment tables. The source's enrollment queries filter the embedded student and section with `.eq` but without `!inner`, which under PostgREST does not filter the enrollment rows themselves; the predicate models the intended join. `.single()` succeeds exactly when one row matches. Both course searches return the filters they add to the query and pass the answer through.
- Concurrency: every call is one sequential step. The check-then-write of the grade upsert is not atomic in the source, and interleavings are not modelled.
- HTTP serving, CORS headers, `Deno.env`, the `Authorization` header, `window.location.origin`, e-mail delivery and console logging.
- Wall-clock time: `generateYears` takes `currentYear` as a parameter, and the last-connection timestamp is the parameter `now`.
- The `ultima_conexion` update of the client's `login` (contexts/AuthContext.tsx:211-215): it writes a table the client never reads back, and its answer is ignored.
- The answers of `deleteUser` and of the last-connection update in the `auth` function: the source ignores both, so the model treats them as always succeeding.
- JSON bodies with missing fields: a body either fails to parse (500) or carries every field the handler destructures. Absent optional fields of a register request are `None`.
- Exceptions other than a failing `req.json()`, such as one from client construction, which would also answer 500.
- String lengths: `|s|` counts Dafny characters, and JavaScript's `length` counts UTF-16 code units. They differ only for characters outside the Basic Multilingual Plane.
- DatePicker.DaysInMonth: does not model the time-value limit of about 275 000 years either side of 1970, beyond which `new Date` gives NaN; the model gives a month length there.
- DatePicker.InitialDateOfFormat: proved for non-negative day, month and year only. A negative year renders as `-2000-01-01`, which `split('-')` does not read back.
- Floating point: grades are `real`. The picker's numbers are unbounded integers or NaN. JavaScript numbers are doubles, so `parseInt` rounds digit strings above 2^53 and gives `Infinity` for strings of more than about 309 digits, and `String(n)` switches to exponent notation from 10^21; none of these is modelled.
- The other screens and components, the redirect in `app/index.tsx`, the client set-up in `lib/supabase.ts` and the constants in `lib/config.ts`: they hold no rule to state.
