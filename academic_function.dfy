/**
 * The `academic` edge function: the dispatch of a request on its path and
 * method to one of eight handlers, and the status and body each answers with.
 * The list handlers pass the query answer through; the grade and attendance
 * handlers write to the store. Query answers are parameters.
 */
module AcademicFunction {
  import opened Wrappers
  import opened Database
  import opened AcademicStore

  /** The JSON body of a response, or the plain `ok` of a preflight. */
  datatype Body =
    | Text(text: string)
    | DataRows(rows: seq<Row>)
    | DataRow(row: Row)
    | ErrorBody(error: string)
    | MessageBody(message: string)

  datatype Response = Response(status: int, body: Body)

  /** What the handler needs of a request: the method, the path and the query parameters. */
  datatype Request = Request(verb: string, path: string, params: map<string, string>)

  /** `searchParams.get(name)`: `null` when the parameter is absent. */
  function Param(req: Request, name: string): (p: Option<string>)
    ensures p.Some? <==> name in req.params
    ensures p.Some? ==> p.value == req.params[name]
  {
    if name in req.params then Some(req.params[name]) else None
  }

  /** The fields the two POST handlers destructure from the JSON body. */
  datatype PostFields = PostFields(
    codigoCurso: string,
    codigoEstudiante: string,
    tipoNota: string,
    nota: real,
    observaciones: Option<string>,
    fecha: string,
    estado: string,
    observacion: string,
    idProfesor: string)

  /** What `req.json()` gives: the fields, or the message of the exception it throws. */
  datatype JsonBody = Malformed(message: string) | Json(fields: PostFields)

  datatype Route =
    | StudentCourses | ProfessorCourses | StudentGrades | SearchCourses
    | SearchStudent | SaveGrade | RecordAttendance | EnrolledStudents | NoRoute

  /** The chain of `if (path === ... && req.method === ...)` tests, in source order. */
  function RouteOf(path: string, verb: string): Route {
    if path == "/academic/student-courses" && verb == "GET" then StudentCourses
    else if path == "/academic/professor-courses" && verb == "GET" then ProfessorCourses
    else if path == "/academic/student-grades" && verb == "GET" then StudentGrades
    else if path == "/academic/search-courses" && verb == "GET" then SearchCourses
    else if path == "/academic/search-student" && verb == "GET" then SearchStudent
    else if path == "/academic/grades" && verb == "POST" then SaveGrade
    else if path == "/academic/attendance" && verb == "POST" then RecordAttendance
    else if path == "/academic/enrolled-students" && verb == "GET" then EnrolledStudents
    else NoRoute
  }

  /** The endpoints of the function, as a table of path and method. */
  function Endpoints(): map<(string, string), Route> {
    map[
      ("/academic/student-courses", "GET") := StudentCourses,
      ("/academic/professor-courses", "GET") := ProfessorCourses,
      ("/academic/student-grades", "GET") := StudentGrades,
      ("/academic/search-courses", "GET") := SearchCourses,
      ("/academic/search-student", "GET") := SearchStudent,
      ("/academic/grades", "POST") := SaveGrade,
      ("/academic/attendance", "POST") := RecordAttendance,
      ("/academic/enrolled-students", "GET") := EnrolledStudents]
  }

  /** The chain of tests routes exactly the pairs of the table, each to its
      handler, and every other pair to "Not found". */
  lemma RouteOfFollowsEndpoints(path: string, verb: string)
    ensures (path, verb) in Endpoints() ==> RouteOf(path, verb) == Endpoints()[(path, verb)]
    ensures (path, verb) !in Endpoints() <==> RouteOf(path, verb) == NoRoute
  {
  }

  /** A JavaScript string parameter is truthy when present and not empty. */
  predicate Truthy(p: Option<string>) {
    p.Some? && p.value != ""
  }

  /** The filters search-courses adds to its query builder: the school when
      `escuela_id` is truthy (the string "0" included), then the text when
      `query` is truthy. */
  method SearchFilters(query: Option<string>, escuelaId: Option<string>) returns (filters: seq<CourseFilter>)
    ensures |filters| <= 2
    ensures forall s :: SchoolIs(s) in filters <==> Truthy(escuelaId) && s == escuelaId.value
    ensures forall t :: NameOrCodeLike(t) in filters <==> Truthy(query) && t == query.value
    ensures Truthy(escuelaId) ==> |filters| > 0 && filters[0] == SchoolIs(escuelaId.value)
  {
    filters := [];
    if Truthy(escuelaId) {
      filters := filters + [SchoolIs(escuelaId.value)];
    }
    if Truthy(query) {
      filters := filters + [NameOrCodeLike(query.value)];
    }
  }

  /** The answer of a list handler: 400 with the error's message, or the rows. */
  function ListResponse(answer: QueryResult<Row>): (r: Response)
    ensures r.status == 400 <==> answer.Failed?
    ensures answer.Failed? ==> r.body == ErrorBody(answer.message)
    ensures answer.Rows? ==> r == Response(200, DataRows(answer.rows))
  {
    match answer
    case Failed(message) => Response(400, ErrorBody(message))
    case Rows(rows) => Response(200, DataRows(rows))
  }

  /** The answer of search-student: the single student with the code, and
      404 "Student not found" for any error of `.single()`. */
  function SearchStudentResponse(answer: QueryResult<Row>): (r: Response)
    ensures r.status == 404 <==> !(answer.Rows? && |answer.rows| == 1)
    ensures r.status == 404 ==> r.body == ErrorBody("Student not found")
    ensures r.status != 404 ==> r == Response(200, DataRow(answer.rows[0]))
  {
    if answer.Rows? && |answer.rows| == 1 then Response(200, DataRow(answer.rows[0]))
    else Response(404, ErrorBody("Student not found"))
  }

  /** A failing lookup is "not found" for search-student but 400 for a list. */
  lemma SearchStudentHidesTheError(message: string)
    ensures SearchStudentResponse(Failed(message)) == Response(404, ErrorBody("Student not found"))
    ensures ListResponse(Failed(message)) == Response(400, ErrorBody(message))
  {
  }

  /** The answer of a write handler. */
  function WriteResponse(outcome: WriteOutcome, success: string): (r: Response)
    ensures r.status == 404 <==> outcome == EnrollmentNotFound
    ensures r.status == 404 ==> r.body == ErrorBody("Enrollment not found")
    ensures r.status == 400 <==> outcome.WriteFailed?
    ensures outcome.WriteFailed? ==> r.body == ErrorBody(outcome.message)
    ensures r.status == 200 <==> outcome == Written
    ensures outcome == Written ==> r.body == MessageBody(success)
  {
    match outcome
    case EnrollmentNotFound => Response(404, ErrorBody("Enrollment not found"))
    case WriteFailed(message) => Response(400, ErrorBody(message))
    case Written => Response(200, MessageBody(success))
  }

  function KeyOf(f: PostFields): EnrollmentKey {
    EnrollmentKey(f.codigoEstudiante, f.codigoCurso, f.idProfesor)
  }

  function GradeWriteOf(f: PostFields): GradeWrite {
    GradeWrite(ColumnFor(f.tipoNota), f.nota, f.observaciones, f.idProfesor)
  }

  function AttendanceWriteOf(f: PostFields): AttendanceWrite {
    AttendanceWrite(f.fecha, f.estado, f.observacion, f.idProfesor)
  }

  /** The `serve` callback. `answer` is what the single query of a read
      handler returns; `lookupFails` and `writeError` are the backend's answers
      to the existing-grade lookup and to the write of a POST handler;
      `filters` are the filters the course search adds to its query (none on
      every other route). */
  method Serve(store: Store, req: Request, body: JsonBody, answer: QueryResult<Row>,
               lookupFails: bool, writeError: Option<string>) returns (resp: Response, filters: seq<CourseFilter>)
    requires store.Valid()
    modifies store
    ensures store.Valid()
    ensures req.verb == "OPTIONS" ==> resp == Response(200, Text("ok"))
    ensures req.verb == "OPTIONS" || RouteOf(req.path, req.verb) !in {SaveGrade, RecordAttendance}
            ==> unchanged(store)
    ensures req.verb == "OPTIONS" || RouteOf(req.path, req.verb) != SearchCourses ==> filters == []
    ensures req.verb != "OPTIONS" && RouteOf(req.path, req.verb) == SearchCourses ==>
      && |filters| <= 2
      && (forall s :: SchoolIs(s) in filters <==> Truthy(Param(req, "escuela_id")) && s == Param(req, "escuela_id").value)
      && (forall t :: NameOrCodeLike(t) in filters <==> Truthy(Param(req, "query")) && t == Param(req, "query").value)
    ensures req.verb != "OPTIONS" ==>
      match RouteOf(req.path, req.verb)
      case NoRoute => resp == Response(404, ErrorBody("Not found"))
      case SearchStudent => resp == SearchStudentResponse(answer)
      case SaveGrade =>
        (body.Malformed? ==> resp == Response(500, ErrorBody(body.message)) && unchanged(store))
        && (body.Json? ==>
          && resp == WriteResponse(if Resolve(store.enrollments, store.students, store.sections, KeyOf(body.fields)).None?
                                   then EnrollmentNotFound
                                   else if writeError.Some? then WriteFailed(writeError.value) else Written,
                                   "Grade saved successfully")
          && store.students == old(store.students) && store.sections == old(store.sections)
          && store.enrollments == old(store.enrollments)
          && store.attendances == old(store.attendances)
          && (resp.status == 200 ==> store.grades == UpsertedGrades(old(store.grades),
                Resolve(store.enrollments, store.students, store.sections, KeyOf(body.fields)).value,
                GradeWriteOf(body.fields), lookupFails, old(store.nextGradeId)))
          && (resp.status != 200 ==> store.grades == old(store.grades)))
      case RecordAttendance =>
        (body.Malformed? ==> resp == Response(500, ErrorBody(body.message)) && unchanged(store))
        && (body.Json? ==>
          && resp == WriteResponse(if Resolve(store.enrollments, store.students, store.sections, KeyOf(body.fields)).None?
                                   then EnrollmentNotFound
                                   else if writeError.Some? then WriteFailed(writeError.value) else Written,
                                   "Attendance recorded successfully")
          && store.students == old(store.students) && store.sections == old(store.sections)
          && store.enrollments == old(store.enrollments)
          && store.grades == old(store.grades)
          && (resp.status == 200 ==> store.attendances == AppendedAttendance(old(store.attendances),
                Resolve(store.enrollments, store.students, store.sections, KeyOf(body.fields)).value,
                AttendanceWriteOf(body.fields), old(store.nextAttendanceId)))
          && (resp.status != 200 ==> store.attendances == old(store.attendances)))
      case _ => resp == ListResponse(answer)
  {
    filters := [];
    if req.verb == "OPTIONS" {
      return Response(200, Text("ok")), [];
    }
    var route := RouteOf(req.path, req.verb);
    match route {
      case SaveGrade =>
        resp := SaveGradeHandler(store, body, lookupFails, writeError);
      case RecordAttendance =>
        resp := RecordAttendanceHandler(store, body, writeError);
      case SearchStudent =>
        resp := SearchStudentResponse(answer);
      case SearchCourses =>
        filters := SearchFilters(Param(req, "query"), Param(req, "escuela_id"));
        resp := ListResponse(answer);
      case NoRoute =>
        resp := Response(404, ErrorBody("Not found"));
      case _ =>
        resp := ListResponse(answer);
    }
  }

  /** The grade handler (POST /academic/grades). */
  method SaveGradeHandler(store: Store, body: JsonBody, lookupFails: bool, writeError: Option<string>)
    returns (resp: Response)
    requires store.Valid()
    modifies store
    ensures store.Valid()
    ensures body.Malformed? ==> resp == Response(500, ErrorBody(body.message)) && unchanged(store)
    ensures body.Json? ==>
      && store.students == old(store.students) && store.sections == old(store.sections)
      && store.enrollments == old(store.enrollments) && store.attendances == old(store.attendances)
      && resp == WriteResponse(if Resolve(store.enrollments, store.students, store.sections, KeyOf(body.fields)).None?
                               then EnrollmentNotFound
                               else if writeError.Some? then WriteFailed(writeError.value) else Written,
                               "Grade saved successfully")
      && (resp.status == 200 ==> store.grades == UpsertedGrades(old(store.grades),
            Resolve(store.enrollments, store.students, store.sections, KeyOf(body.fields)).value,
            GradeWriteOf(body.fields), lookupFails, old(store.nextGradeId)))
      && (resp.status != 200 ==> store.grades == old(store.grades))
  {
    if body.Malformed? {
      return Response(500, ErrorBody(body.message));
    }
    var outcome := store.UpsertGrade(KeyOf(body.fields), GradeWriteOf(body.fields), lookupFails, writeError);
    resp := WriteResponse(outcome, "Grade saved successfully");
  }

  /** The attendance handler (POST /academic/attendance). */
  method RecordAttendanceHandler(store: Store, body: JsonBody, writeError: Option<string>)
    returns (resp: Response)
    requires store.Valid()
    modifies store
    ensures store.Valid()
    ensures body.Malformed? ==> resp == Response(500, ErrorBody(body.message)) && unchanged(store)
    ensures body.Json? ==>
      && store.students == old(store.students) && store.sections == old(store.sections)
      && store.enrollments == old(store.enrollments) && store.grades == old(store.grades)
      && resp == WriteResponse(if Resolve(store.enrollments, store.students, store.sections, KeyOf(body.fields)).None?
                               then EnrollmentNotFound
                               else if writeError.Some? then WriteFailed(writeError.value) else Written,
                               "Attendance recorded successfully")
      && (resp.status == 200 ==> store.attendances == AppendedAttendance(old(store.attendances),
            Resolve(store.enrollments, store.students, store.sections, KeyOf(body.fields)).value,
            AttendanceWriteOf(body.fields), old(store.nextAttendanceId)))
      && (resp.status != 200 ==> store.attendances == old(store.attendances))
  {
    if body.Malformed? {
      return Response(500, ErrorBody(body.message));
    }
    var outcome := store.AppendAttendance(KeyOf(body.fields), AttendanceWriteOf(body.fields), writeError);
    resp := WriteResponse(outcome, "Attendance recorded successfully");
  }
}
