/**
 * Row shapes of the hosted relational store (the tables `estudiantes`,
 * `secciones`, `matriculas`, `notas` and `asistencias`, and the signed-in
 * user profile), and the outcome of one backend query.
 */
module Database {
  import opened Wrappers

  /** A row that the application passes through without looking inside:
      column name to rendered value. */
  type Row = map<string, string>

  /** What one query returned: its rows, or the error the client reported. */
  datatype QueryResult<T> = Rows(rows: seq<T>) | Failed(message: string)

  /** A row of `estudiantes`: the student profile keyed by the user id. */
  datatype Student = Student(id: string, codigo: string, idEscuela: int)

  /** A row of `secciones`: one offering of a course, taught by one professor. */
  datatype Section = Section(
    id: int,
    nombre: string,
    codigoCurso: string,
    idProfesor: string,
    periodoAcademico: string)

  /** A row of `matriculas`: a student enrolled in a section. */
  datatype Enrollment = Enrollment(id: int, idEstudiante: string, idSeccion: int)

  /** A row of `notas`: the grade record of one enrollment, with three optional components. */
  datatype Grade = Grade(
    id: int,
    idMatricula: int,
    examenParcial: Option<real>,
    examenFinal: Option<real>,
    notaTareas: Option<real>,
    observaciones: Option<string>,
    idProfesorRegistro: string)

  /** A row of `asistencias`: one attendance mark of one enrollment. */
  datatype Attendance = Attendance(
    id: int,
    idMatricula: int,
    fecha: string,
    estado: string,
    observacion: string,
    idProfesorRegistro: string)

  /** The signed-in user as the application keeps it (`AuthUser`). */
  datatype AuthUser = AuthUser(
    id: string,
    email: string,
    nombres: string,
    apellidos: string,
    rol: string,
    codigo: Option<string>,
    codigoProfesor: Option<string>,
    idEscuela: Option<int>)

  /** A filter added to the course search: the course is offered by a
      school, or its name or code contains the text (`ilike '%text%'`). */
  datatype CourseFilter = SchoolIs(idEscuela: string) | NameOrCodeLike(text: string)
}
