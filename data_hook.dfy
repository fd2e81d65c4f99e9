/**
 * The client's data hook (`useSupabaseData`): the `isLoading` flag, the read
 * operations with the rows they hand to the screens, the course-search guard,
 * and the grade and attendance writes. Every query answer is a parameter.
 */
module DataHook {
  import opened Wrappers
  import opened Database
  import opened JsString
  import opened AcademicStore

  /** The terms `getSemesters` offers, as pairs of year and term number (1 or 2). */
  function SemesterTerms(): seq<(nat, nat)> {
    [(2025, 1), (2024, 2), (2024, 1), (2023, 2), (2023, 1)]
  }

  /** The name of the `term`-th (1 or 2) term of `year`: `2024-I`, `2024-II`. */
  function SemesterName(year: nat, term: nat): string {
    NatToString(year) + "-" + (if term == 2 then "II" else "I")
  }

  /** `getSemesters`: the names of the offered terms, in the order listed. */
  function Semesters(): seq<string> {
    seq(|SemesterTerms()|, i requires 0 <= i < |SemesterTerms()| =>
      SemesterName(SemesterTerms()[i].0, SemesterTerms()[i].1))
  }

  /** The offered terms are five consecutive terms, newest first: each term
      number is 1 or 2, and each term is the one just before the previous. */
  lemma SemestersNewestFirst()
    ensures |Semesters()| == |SemesterTerms()| == 5
    ensures forall i :: 0 <= i < |SemesterTerms()| ==> SemesterTerms()[i].1 in {1, 2}
    ensures forall i :: 0 < i < |SemesterTerms()| ==>
      var (y0, t0) := SemesterTerms()[i - 1];
      var (y1, t1) := SemesterTerms()[i];
      2 * y1 + t1 == 2 * y0 + t0 - 1
  {
  }

  // The rows `getUserCourses` hands out.

  /** The embedded `secciones` object of an enrollment row; any column may be null. */
  datatype SectionEmbed = SectionEmbed(
    id: Option<int>,
    nombre: Option<string>,
    codigoCurso: Option<string>,
    horario: Option<string>,
    periodoAcademico: Option<string>,
    curso: Option<Row>,
    profesor: Option<Row>)

  /** A `matriculas` row of the courses query, reduced to its section. */
  datatype EnrollmentListing = EnrollmentListing(section: Option<SectionEmbed>)

  datatype CourseView = CourseView(
    id: int,
    nombre: string,
    codigoCurso: string,
    horario: Option<string>,
    periodoAcademico: string,
    curso: Option<Row>,
    profesor: Option<Row>)

  /** One course of `getUserCourses`: the section's columns, with 0 for a
      missing id and the empty string for a missing name, course code or term. */
  function CourseOf(l: EnrollmentListing): (c: CourseView)
    ensures l.section.None? ==> c == CourseView(0, "", "", None, "", None, None)
    ensures l.section.Some? && l.section.value.id.Some? ==> c.id == l.section.value.id.value
    ensures l.section.Some? && l.section.value.nombre.Some? ==> c.nombre == l.section.value.nombre.value
    ensures l.section.Some? && l.section.value.codigoCurso.Some? ==> c.codigoCurso == l.section.value.codigoCurso.value
    ensures l.section.Some? && l.section.value.periodoAcademico.Some? ==>
      c.periodoAcademico == l.section.value.periodoAcademico.value
    ensures l.section.Some? ==>
      && (l.section.value.id.None? ==> c.id == 0)
      && (l.section.value.nombre.None? ==> c.nombre == "")
      && (l.section.value.codigoCurso.None? ==> c.codigoCurso == "")
      && (l.section.value.periodoAcademico.None? ==> c.periodoAcademico == "")
      && c.horario == l.section.value.horario && c.curso == l.section.value.curso
      && c.profesor == l.section.value.profesor
  {
    match l.section
    case None => CourseView(0, "", "", None, "", None, None)
    case Some(s) =>
      CourseView(s.id.GetOr(0), s.nombre.GetOr(""), s.codigoCurso.GetOr(""), s.horario,
                 s.periodoAcademico.GetOr(""), s.curso, s.profesor)
  }

  // The rows `getStudentGrades` hands out.

  /** A `notas` row with the course code of its enrollment's section, if any. */
  datatype GradeListing = GradeListing(grade: Row, codigoCurso: Option<string>)

  /** `{ ...grade, codigo_curso }`: the row with its course code added, the
      empty string when the section is missing. */
  function GradeViewOf(l: GradeListing): (r: Row)
    ensures "codigo_curso" in r && r["codigo_curso"] == l.codigoCurso.GetOr("")
    ensures r.Keys == l.grade.Keys + {"codigo_curso"}
    ensures forall k :: k in l.grade && k != "codigo_curso" ==> r[k] == l.grade[k]
  {
    l.grade["codigo_curso" := l.codigoCurso.GetOr("")]
  }

  // The rows `getStudentAttendances` hands out.

  /** The section of an attendance's enrollment, and the name of its course if embedded. */
  datatype AttendanceSection = AttendanceSection(codigoCurso: string, cursoNombre: Option<string>)

  /** An `asistencias` row with its embedded enrollment's section, if any. */
  datatype AttendanceListing = AttendanceListing(
    id: int, fecha: string, estado: string, observacion: string,
    section: Option<AttendanceSection>)

  datatype AttendanceView = AttendanceView(
    id: int, fecha: string, estado: string, observacion: string,
    codigoCurso: Option<string>, cursoNombre: Option<string>)

  /** One attendance of `getStudentAttendances`: its own columns, and the course
      code and name left undefined when the section or the course is missing. */
  function AttendanceViewOf(l: AttendanceListing): (v: AttendanceView)
    ensures v.id == l.id && v.fecha == l.fecha && v.estado == l.estado && v.observacion == l.observacion
    ensures v.codigoCurso.Some? <==> l.section.Some?
    ensures v.cursoNombre.Some? <==> l.section.Some? && l.section.value.cursoNombre.Some?
    ensures l.section.Some? ==> v.codigoCurso.value == l.section.value.codigoCurso
    ensures v.cursoNombre.Some? ==> v.cursoNombre == l.section.value.cursoNombre
  {
    AttendanceView(l.id, l.fecha, l.estado, l.observacion,
      if l.section.Some? then Some(l.section.value.codigoCurso) else None,
      if l.section.Some? then l.section.value.cursoNombre else None)
  }

  /** `data.map(f)`, or `[]` when the query reported an error. */
  function Listed<T, U>(answer: QueryResult<T>, f: T -> U): (r: seq<U>)
    ensures answer.Failed? ==> r == []
    ensures answer.Rows? ==> |r| == |answer.rows| && forall i :: 0 <= i < |r| ==> r[i] == f(answer.rows[i])
  {
    match answer
    case Failed(_) => []
    case Rows(rows) => seq(|rows|, i requires 0 <= i < |rows| => f(rows[i]))
  }

  /** The student record `searchStudentByCode` answers: the row when exactly
      one student has the code (`.single()`), and `null` otherwise. */
  function SingleRow(answer: QueryResult<Row>): (r: Option<Row>)
    ensures r.Some? <==> answer.Rows? && |answer.rows| == 1
    ensures r.Some? ==> r.value == answer.rows[0]
  {
    if answer.Rows? && |answer.rows| == 1 then Some(answer.rows[0]) else None
  }

  /** The body of `insertGrade` and of `registerAttendance`. */
  datatype GradeData = GradeData(
    codigoCurso: string, codigoEstudiante: string, tipoNota: string,
    nota: real, observaciones: string, idProfesor: string)

  datatype AttendanceData = AttendanceData(
    codigoCurso: string, codigoEstudiante: string, fecha: string,
    estado: string, observacion: string, idProfesor: string)

  function GradeKey(d: GradeData): EnrollmentKey {
    EnrollmentKey(d.codigoEstudiante, d.codigoCurso, d.idProfesor)
  }

  /** The update the hook sends: one component chosen by `tipo_nota`, the remark and the professor. */
  function GradeWriteOf(d: GradeData): (w: GradeWrite)
    ensures w.column == ColumnFor(d.tipoNota) && w.nota == d.nota
    ensures w.observaciones == Some(d.observaciones) && w.idProfesor == d.idProfesor
  {
    GradeWrite(ColumnFor(d.tipoNota), d.nota, Some(d.observaciones), d.idProfesor)
  }

  /** The filters `searchCourses` adds to its query builder: the school when
      `escuelaId` is not 0, then the untrimmed text, always. */
  method CourseFilters(query: string, escuelaId: int) returns (filters: seq<CourseFilter>)
    ensures |filters| <= 2
    ensures forall s :: SchoolIs(s) in filters <==> escuelaId != 0 && s == IntToString(escuelaId)
    ensures forall t :: NameOrCodeLike(t) in filters <==> t == query
  {
    filters := [];
    if escuelaId != 0 {
      filters := filters + [SchoolIs(IntToString(escuelaId))];
    }
    filters := filters + [NameOrCodeLike(query)];
  }

  class Hook {
    var isLoading: bool

    constructor ()
      ensures !isLoading
    {
      isLoading := false;
    }

    /** `getUserCourses`: the enrolled sections as courses; `[]` on error. */
    method GetUserCourses(answer: QueryResult<EnrollmentListing>) returns (courses: seq<CourseView>)
      modifies this
      ensures !isLoading
      ensures answer.Failed? ==> courses == []
      ensures answer.Rows? ==> |courses| == |answer.rows|
      ensures answer.Rows? ==> forall i :: 0 <= i < |courses| ==> courses[i] == CourseOf(answer.rows[i])
    {
      isLoading := true;
      courses := Listed(answer, CourseOf);
      isLoading := false;
    }

    /** `getStudentGrades`: each grade row with its course code; `[]` on error. */
    method GetStudentGrades(answer: QueryResult<GradeListing>) returns (grades: seq<Row>)
      modifies this
      ensures !isLoading
      ensures answer.Failed? ==> grades == []
      ensures answer.Rows? ==> |grades| == |answer.rows|
      ensures answer.Rows? ==> forall i :: 0 <= i < |grades| ==> grades[i] == GradeViewOf(answer.rows[i])
    {
      isLoading := true;
      grades := Listed(answer, GradeViewOf);
      isLoading := false;
    }

    /** `getProfessorCourses`: the sections as returned; `[]` on error. */
    method GetProfessorCourses(answer: QueryResult<Row>) returns (sections: seq<Row>)
      modifies this
      ensures !isLoading
      ensures sections == if answer.Rows? then answer.rows else []
    {
      isLoading := true;
      sections := if answer.Rows? then answer.rows else [];
      isLoading := false;
    }

    /** `searchCourses`: a blank query answers `[]` at once, without a query
        and without touching `isLoading`. Otherwise the query carries the
        filters of `CourseFilters`. `filters` is the query sent, `None` when
        none is. */
    method SearchCourses(query: string, escuelaId: int, answer: QueryResult<Row>)
      returns (filters: Option<seq<CourseFilter>>, courses: seq<Row>)
      modifies this
      ensures filters.None? <==> IsBlank(query)
      ensures filters.None? ==> courses == [] && isLoading == old(isLoading)
      ensures filters.Some? ==> !isLoading && courses == if answer.Rows? then answer.rows else []
      ensures filters.Some? ==>
        && |filters.value| <= 2
        && (forall s :: SchoolIs(s) in filters.value <==> escuelaId != 0 && s == IntToString(escuelaId))
        && (forall t :: NameOrCodeLike(t) in filters.value <==> t == query)
    {
      var blank := TrimIsEmpty(query);
      if blank {
        return None, [];
      }
      isLoading := true;
      var builder := CourseFilters(query, escuelaId);
      filters := Some(builder);
      courses := if answer.Rows? then answer.rows else [];
      isLoading := false;
    }

    /** `searchStudentByCode`: the single student with the code, or `null`. */
    method SearchStudentByCode(answer: QueryResult<Row>) returns (student: Option<Row>)
      ensures student.Some? <==> answer.Rows? && |answer.rows| == 1
      ensures student.Some? ==> student.value == answer.rows[0]
    {
      student := SingleRow(answer);
    }

    /** `getStudentAttendances`: each mark with its course; `[]` on error. */
    method GetStudentAttendances(answer: QueryResult<AttendanceListing>) returns (marks: seq<AttendanceView>)
      ensures answer.Failed? ==> marks == []
      ensures answer.Rows? ==> |marks| == |answer.rows|
      ensures answer.Rows? ==> forall i :: 0 <= i < |marks| ==> marks[i] == AttendanceViewOf(answer.rows[i])
    {
      marks := Listed(answer, AttendanceViewOf);
    }

    /** `getEnrolledStudents`: the enrollments as returned; `[]` on error. */
    method GetEnrolledStudents(answer: QueryResult<Row>) returns (students: seq<Row>)
      ensures students == if answer.Rows? then answer.rows else []
    {
      students := if answer.Rows? then answer.rows else [];
    }

    /** `insertGrade`: true exactly when a single enrollment matched and the
        write went through; the grade table changes only then. */
    method InsertGrade(store: Store, d: GradeData, lookupFails: bool, writeError: Option<string>) returns (ok: bool)
      requires store.Valid()
      modifies this, store
      ensures store.Valid() && !isLoading
      ensures ok <==> Resolve(store.enrollments, store.students, store.sections, GradeKey(d)).Some? && writeError.None?
      ensures store.students == old(store.students) && store.sections == old(store.sections)
      ensures store.enrollments == old(store.enrollments) && store.attendances == old(store.attendances)
      ensures !ok ==> store.grades == old(store.grades)
      ensures ok ==> store.grades == UpsertedGrades(old(store.grades),
        Resolve(store.enrollments, store.students, store.sections, GradeKey(d)).value,
        GradeWriteOf(d), lookupFails, old(store.nextGradeId))
    {
      isLoading := true;
      var outcome := store.UpsertGrade(GradeKey(d), GradeWriteOf(d), lookupFails, writeError);
      ok := outcome == Written;
      isLoading := false;
    }

    /** `registerAttendance`: true exactly when a single enrollment matched and
        the insert went through, which appends one mark. */
    method RegisterAttendance(store: Store, d: AttendanceData, writeError: Option<string>) returns (ok: bool)
      requires store.Valid()
      modifies this, store
      ensures store.Valid() && !isLoading
      ensures ok <==> Resolve(store.enrollments, store.students, store.sections,
                              EnrollmentKey(d.codigoEstudiante, d.codigoCurso, d.idProfesor)).Some? && writeError.None?
      ensures store.students == old(store.students) && store.sections == old(store.sections)
      ensures store.enrollments == old(store.enrollments) && store.grades == old(store.grades)
      ensures !ok ==> store.attendances == old(store.attendances)
      ensures ok ==> store.attendances == AppendedAttendance(old(store.attendances),
        Resolve(store.enrollments, store.students, store.sections,
                EnrollmentKey(d.codigoEstudiante, d.codigoCurso, d.idProfesor)).value,
        AttendanceWrite(d.fecha, d.estado, d.observacion, d.idProfesor), old(store.nextAttendanceId))
    {
      isLoading := true;
      var outcome := store.AppendAttendance(
        EnrollmentKey(d.codigoEstudiante, d.codigoCurso, d.idProfesor),
        AttendanceWrite(d.fecha, d.estado, d.observacion, d.idProfesor), writeError);
      ok := outcome == Written;
      isLoading := false;
    }
  }
}
