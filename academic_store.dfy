/**
 * The tables that the grade and attendance writes touch (`estudiantes`,
 * `secciones`, `matriculas`, `notas`, `asistencias`), held in memory, with the
 * two write sequences the client hook and the `academic` edge function share:
 * resolve exactly one enrollment, stop when there is none, then update or
 * insert the grade row, or append the attendance row.
 */
module AcademicStore {
  import opened Wrappers
  import opened Database

  /** The three grade components a write can set. */
  datatype Column = ExamenParcial | ExamenFinal | NotaTareas

  /** The column named by `tipo_nota`: every value other than "parcial" and
      "final" selects the homework column. */
  function ColumnFor(tipoNota: string): (c: Column)
    ensures c == ExamenParcial <==> tipoNota == "parcial"
    ensures c == ExamenFinal <==> tipoNota == "final"
    ensures c == NotaTareas <==> tipoNota != "parcial" && tipoNota != "final"
  {
    if tipoNota == "parcial" then ExamenParcial
    else if tipoNota == "final" then ExamenFinal
    else NotaTareas
  }

  /** What identifies the enrollment a write is for: the student's code, the
      course code of the section and the professor teaching it. */
  datatype EnrollmentKey = EnrollmentKey(codigoEstudiante: string, codigoCurso: string, idProfesor: string)

  predicate HasStudent(students: seq<Student>, id: string, codigo: string) {
    exists i :: 0 <= i < |students| && students[i].id == id && students[i].codigo == codigo
  }

  predicate HasSection(sections: seq<Section>, id: int, codigoCurso: string, idProfesor: string) {
    exists i :: 0 <= i < |sections| && sections[i].id == id
      && sections[i].codigoCurso == codigoCurso && sections[i].idProfesor == idProfesor
  }

  /** An enrollment of the student with the key's code in a section of the
      key's course taught by the key's professor. */
  predicate Matches(e: Enrollment, students: seq<Student>, sections: seq<Section>, key: EnrollmentKey) {
    HasStudent(students, e.idEstudiante, key.codigoEstudiante)
    && HasSection(sections, e.idSeccion, key.codigoCurso, key.idProfesor)
  }

  /** The enrollment rows the lookup selects, in table order. */
  function MatchingEnrollments(enrollments: seq<Enrollment>, students: seq<Student>, sections: seq<Section>, key: EnrollmentKey)
    : (r: seq<Enrollment>)
    ensures |r| <= |enrollments|
    ensures forall e :: e in r <==> e in enrollments && Matches(e, students, sections, key)
  {
    if enrollments == [] then []
    else
      var rest := MatchingEnrollments(enrollments[1..], students, sections, key);
      assert forall e :: e in enrollments <==> e == enrollments[0] || e in enrollments[1..];
      if Matches(enrollments[0], students, sections, key) then [enrollments[0]] + rest else rest
  }

  /** The lookup with `.single()`: the id of the enrollment when exactly one
      row matches, and an error otherwise. */
  function Resolve(enrollments: seq<Enrollment>, students: seq<Student>, sections: seq<Section>, key: EnrollmentKey)
    : (r: Option<int>)
    ensures r.Some? <==> |MatchingEnrollments(enrollments, students, sections, key)| == 1
  {
    var m := MatchingEnrollments(enrollments, students, sections, key);
    if |m| == 1 then Some(m[0].id) else None
  }

  /** A resolved id belongs to a matching enrollment, and every matching
      enrollment has that id: the match is unique. */
  lemma ResolveIsTheUniqueMatch(enrollments: seq<Enrollment>, students: seq<Student>, sections: seq<Section>, key: EnrollmentKey)
    requires Resolve(enrollments, students, sections, key).Some?
    ensures exists e :: e in enrollments && Matches(e, students, sections, key)
                        && e.id == Resolve(enrollments, students, sections, key).value
    ensures forall e :: e in enrollments && Matches(e, students, sections, key)
                        ==> e.id == Resolve(enrollments, students, sections, key).value
  {
    var m := MatchingEnrollments(enrollments, students, sections, key);
    assert m[0] in m;
  }

  /** With no matching enrollment the lookup fails, whatever else the tables hold. */
  lemma NoMatchFails(enrollments: seq<Enrollment>, students: seq<Student>, sections: seq<Section>, key: EnrollmentKey)
    requires forall e :: e in enrollments ==> !Matches(e, students, sections, key)
    ensures Resolve(enrollments, students, sections, key).None?
  {
    var m := MatchingEnrollments(enrollments, students, sections, key);
    assert forall k :: 0 <= k < |m| ==> m[k] in m;
  }

  /** An enrollment table without a match selects nothing. */
  lemma {:induction false} NoMatchSelectsNothing(enrollments: seq<Enrollment>, students: seq<Student>,
                                                 sections: seq<Section>, key: EnrollmentKey)
    requires forall j :: 0 <= j < |enrollments| ==> !Matches(enrollments[j], students, sections, key)
    ensures MatchingEnrollments(enrollments, students, sections, key) == []
  {
    if enrollments != [] {
      var rest := enrollments[1..];
      assert forall j :: 0 <= j < |rest| ==> rest[j] == enrollments[j + 1];
      NoMatchSelectsNothing(rest, students, sections, key);
    }
  }

  /** When exactly the row at `i` matches, the lookup selects that row alone. */
  lemma {:induction false} SingleMatchSelected(enrollments: seq<Enrollment>, students: seq<Student>,
                                               sections: seq<Section>, key: EnrollmentKey, i: nat)
    requires i < |enrollments| && Matches(enrollments[i], students, sections, key)
    requires forall j :: 0 <= j < |enrollments| && j != i ==> !Matches(enrollments[j], students, sections, key)
    ensures MatchingEnrollments(enrollments, students, sections, key) == [enrollments[i]]
  {
    var rest := enrollments[1..];
    assert forall j :: 0 <= j < |rest| ==> rest[j] == enrollments[j + 1];
    if i == 0 {
      NoMatchSelectsNothing(rest, students, sections, key);
    } else {
      SingleMatchSelected(rest, students, sections, key, i - 1);
    }
  }

  /** A single matching enrollment resolves, to its own id. */
  lemma UniqueMatchResolves(enrollments: seq<Enrollment>, students: seq<Student>, sections: seq<Section>,
                            key: EnrollmentKey, i: nat)
    requires i < |enrollments| && Matches(enrollments[i], students, sections, key)
    requires forall j :: 0 <= j < |enrollments| && j != i ==> !Matches(enrollments[j], students, sections, key)
    ensures Resolve(enrollments, students, sections, key) == Some(enrollments[i].id)
  {
    SingleMatchSelected(enrollments, students, sections, key, i);
  }

  // The grade rows of one enrollment.

  function GradeCount(grades: seq<Grade>, m: int): nat {
    if grades == [] then 0
    else GradeCount(grades[..|grades| - 1], m) + (if grades[|grades| - 1].idMatricula == m then 1 else 0)
  }

  /** The position of the first grade row of enrollment `m`. */
  function FirstGrade(grades: seq<Grade>, m: int): (k: nat)
    requires GradeCount(grades, m) > 0
    ensures k < |grades| && grades[k].idMatricula == m
  {
    var init := grades[..|grades| - 1];
    if GradeCount(init, m) > 0 then
      var k := FirstGrade(init, m);
      assert grades[k] == init[k];
      k
    else |grades| - 1
  }

  /** No enrollment has two grade rows. */
  predicate SingleGradePerEnrollment(grades: seq<Grade>) {
    forall i, j :: 0 <= i < j < |grades| ==> grades[i].idMatricula != grades[j].idMatricula
  }

  lemma {:induction false} NoGradeRow(grades: seq<Grade>, m: int)
    requires GradeCount(grades, m) == 0
    ensures forall i :: 0 <= i < |grades| ==> grades[i].idMatricula != m
  {
    if grades != [] {
      var init := grades[..|grades| - 1];
      NoGradeRow(init, m);
      assert forall i :: 0 <= i < |init| ==> grades[i] == init[i];
    }
  }

  lemma {:induction false} AtMostOneGradeRow(grades: seq<Grade>, m: int)
    requires SingleGradePerEnrollment(grades)
    ensures GradeCount(grades, m) <= 1
  {
    if grades != [] {
      var init := grades[..|grades| - 1];
      assert SingleGradePerEnrollment(init) by {
        assert forall i :: 0 <= i < |init| ==> grades[i] == init[i];
      }
      AtMostOneGradeRow(init, m);
      if GradeCount(init, m) == 1 {
        var k := FirstGrade(init, m);
        assert grades[k] == init[k];
      }
    }
  }

  /** The lookup of the existing grade with `.single()`: its position when
      exactly one row of the enrollment exists. A failing lookup is not checked
      by the source and reads as "no row". */
  function ExistingGrade(grades: seq<Grade>, m: int, lookupFails: bool): (r: Option<nat>)
    ensures r.Some? ==> r.value < |grades| && grades[r.value].idMatricula == m
    ensures r.Some? <==> !lookupFails && GradeCount(grades, m) == 1
  {
    if !lookupFails && GradeCount(grades, m) == 1 then Some(FirstGrade(grades, m)) else None
  }

  /** The fields of a grade write besides the enrollment: the component, its
      value, the remark (absent when the request leaves it out) and the professor. */
  datatype GradeWrite = GradeWrite(column: Column, nota: real, observaciones: Option<string>, idProfesor: string)

  /** The row after `update(...)`: the chosen component, the remark and the
      recording professor are set; the id, the enrollment and the two other
      components keep their values. */
  function Updated(g: Grade, w: GradeWrite): (h: Grade)
    ensures h.id == g.id && h.idMatricula == g.idMatricula
    ensures h.examenParcial == if w.column == ExamenParcial then Some(w.nota) else g.examenParcial
    ensures h.examenFinal == if w.column == ExamenFinal then Some(w.nota) else g.examenFinal
    ensures h.notaTareas == if w.column == NotaTareas then Some(w.nota) else g.notaTareas
    ensures h.observaciones == if w.observaciones.Some? then w.observaciones else g.observaciones
    ensures h.idProfesorRegistro == w.idProfesor
  {
    var h := g.(idProfesorRegistro := w.idProfesor,
                observaciones := if w.observaciones.Some? then w.observaciones else g.observaciones);
    match w.column
    case ExamenParcial => h.(examenParcial := Some(w.nota))
    case ExamenFinal => h.(examenFinal := Some(w.nota))
    case NotaTareas => h.(notaTareas := Some(w.nota))
  }

  /** The row `insert(...)` creates: only the chosen component is set. */
  function Inserted(id: int, m: int, w: GradeWrite): (h: Grade)
    ensures h.id == id && h.idMatricula == m && h.idProfesorRegistro == w.idProfesor
    ensures h.observaciones == w.observaciones
    ensures h.examenParcial == (if w.column == ExamenParcial then Some(w.nota) else None)
    ensures h.examenFinal == (if w.column == ExamenFinal then Some(w.nota) else None)
    ensures h.notaTareas == (if w.column == NotaTareas then Some(w.nota) else None)
  {
    Updated(Grade(id, m, None, None, None, None, w.idProfesor), w)
  }

  /** The `notas` table after a successful write for enrollment `m`. */
  function UpsertedGrades(grades: seq<Grade>, m: int, w: GradeWrite, lookupFails: bool, nextId: int): seq<Grade> {
    match ExistingGrade(grades, m, lookupFails)
    case Some(k) => grades[k := Updated(grades[k], w)]
    case None => grades + [Inserted(nextId, m, w)]
  }

  /** No two grade rows share an id. */
  predicate DistinctGradeIds(grades: seq<Grade>) {
    forall i, j :: 0 <= i < j < |grades| ==> grades[i].id != grades[j].id
  }

  /** `.update(...).eq('id', id)`: every row with that id gets the write. */
  function UpdatedById(grades: seq<Grade>, id: int, w: GradeWrite): (r: seq<Grade>)
    ensures |r| == |grades|
    ensures forall i :: 0 <= i < |grades| ==> r[i] == if grades[i].id == id then Updated(grades[i], w) else grades[i]
  {
    if grades == [] then []
    else [if grades[0].id == id then Updated(grades[0], w) else grades[0]] + UpdatedById(grades[1..], id, w)
  }

  /** With distinct ids, updating by the found row's id is updating that row. */
  lemma {:induction false} UpdateByIdIsByPosition(grades: seq<Grade>, k: nat, w: GradeWrite)
    requires DistinctGradeIds(grades) && k < |grades|
    ensures UpdatedById(grades, grades[k].id, w) == grades[k := Updated(grades[k], w)]
  {
    var r := UpdatedById(grades, grades[k].id, w);
    forall i | 0 <= i < |grades| && i != k
      ensures r[i] == grades[i]
    {
      if i < k {
        assert grades[i].id != grades[k].id;
      } else {
        assert grades[k].id != grades[i].id;
      }
    }
  }

  /** Every grade id is below `bound`. */
  predicate GradeIdsBelow(grades: seq<Grade>, bound: int) {
    forall i :: 0 <= i < |grades| ==> grades[i].id < bound
  }

  /** Updating a row keeps every id, so distinct ids below the counter stay so. */
  lemma UpdateKeepsIds(grades: seq<Grade>, k: nat, w: GradeWrite, bound: int)
    requires k < |grades| && DistinctGradeIds(grades) && GradeIdsBelow(grades, bound)
    ensures DistinctGradeIds(grades[k := Updated(grades[k], w)])
    ensures GradeIdsBelow(grades[k := Updated(grades[k], w)], bound)
  {
    var r := grades[k := Updated(grades[k], w)];
    assert forall i :: 0 <= i < |r| ==> r[i].id == grades[i].id;
  }

  /** Inserting a row with the counter's id keeps ids distinct and below the next counter. */
  lemma InsertKeepsIds(grades: seq<Grade>, g: Grade, bound: int)
    requires DistinctGradeIds(grades) && GradeIdsBelow(grades, bound) && g.id == bound
    ensures DistinctGradeIds(grades + [g]) && GradeIdsBelow(grades + [g], bound + 1)
  {
    var r := grades + [g];
    assert forall i :: 0 <= i < |grades| ==> r[i] == grades[i];
  }

  /** A write whose lookup succeeds keeps one grade row per enrollment, and
      afterwards the enrollment has exactly one. */
  lemma UpsertKeepsSingleGrade(grades: seq<Grade>, m: int, w: GradeWrite, nextId: int)
    requires SingleGradePerEnrollment(grades)
    ensures SingleGradePerEnrollment(UpsertedGrades(grades, m, w, false, nextId))
    ensures exists i :: 0 <= i < |UpsertedGrades(grades, m, w, false, nextId)|
                      && UpsertedGrades(grades, m, w, false, nextId)[i].idMatricula == m
  {
    AtMostOneGradeRow(grades, m);
    var r := UpsertedGrades(grades, m, w, false, nextId);
    if GradeCount(grades, m) == 0 {
      NoGradeRow(grades, m);
      assert r[|grades|].idMatricula == m;
    } else {
      var k := FirstGrade(grades, m);
      assert r[k].idMatricula == m;
      assert forall i :: 0 <= i < |r| ==> r[i].idMatricula == grades[i].idMatricula;
    }
  }

  /** A write changes no grade row of another enrollment and adds at most one row. */
  lemma UpsertTouchesOneEnrollment(grades: seq<Grade>, m: int, w: GradeWrite, lookupFails: bool, nextId: int)
    ensures |grades| <= |UpsertedGrades(grades, m, w, lookupFails, nextId)| <= |grades| + 1
    ensures forall i :: 0 <= i < |grades| && grades[i].idMatricula != m
                        ==> UpsertedGrades(grades, m, w, lookupFails, nextId)[i] == grades[i]
    ensures forall i :: |grades| <= i < |UpsertedGrades(grades, m, w, lookupFails, nextId)|
                        ==> UpsertedGrades(grades, m, w, lookupFails, nextId)[i] == Inserted(nextId, m, w)
  {
  }

  /** A failing existing-grade lookup inserts a second row for an enrollment that already has one. */
  lemma LookupFailureDuplicates(m: int, w: GradeWrite)
    ensures var before := [Grade(1, m, Some(15.0), None, None, None, "p")];
            && SingleGradePerEnrollment(before)
            && !SingleGradePerEnrollment(UpsertedGrades(before, m, w, true, 2))
  {
    var before := [Grade(1, m, Some(15.0), None, None, None, "p")];
    var after := UpsertedGrades(before, m, w, true, 2);
    assert after[0].idMatricula == after[1].idMatricula;
  }

  /** The fields of an attendance mark besides the enrollment. */
  datatype AttendanceWrite = AttendanceWrite(fecha: string, estado: string, observacion: string, idProfesor: string)

  /** The `asistencias` table after a successful mark: always one more row. */
  function AppendedAttendance(attendances: seq<Attendance>, m: int, w: AttendanceWrite, id: int): (r: seq<Attendance>)
    ensures |r| == |attendances| + 1 && r[..|attendances|] == attendances
    ensures r[|attendances|] == Attendance(id, m, w.fecha, w.estado, w.observacion, w.idProfesor)
  {
    attendances + [Attendance(id, m, w.fecha, w.estado, w.observacion, w.idProfesor)]
  }

  /** Two identical marks give two rows: nothing is merged. */
  lemma RepeatedMarkAddsTwoRows(attendances: seq<Attendance>, m: int, w: AttendanceWrite, id: int)
    ensures var twice := AppendedAttendance(AppendedAttendance(attendances, m, w, id), m, w, id + 1);
            && |twice| == |attendances| + 2
            && twice[|attendances|].idMatricula == m && twice[|attendances| + 1].idMatricula == m
            && twice[|attendances|].fecha == twice[|attendances| + 1].fecha
  {
  }

  /** How a write ends: no single enrollment, the write itself failed, or done. */
  datatype WriteOutcome = EnrollmentNotFound | WriteFailed(message: string) | Written

  /** The tables as the backend holds them. The row ids the database assigns
      are modelled by two counters. */
  class Store {
    var students: seq<Student>
    var sections: seq<Section>
    var enrollments: seq<Enrollment>
    var grades: seq<Grade>
    var attendances: seq<Attendance>
    var nextGradeId: int
    var nextAttendanceId: int

    /** Every row id is below the counter of its table, so new ids are fresh,
        and grade ids are distinct, so an update by id touches one row. */
    predicate Valid()
      reads this
    {
      && DistinctGradeIds(grades)
      && GradeIdsBelow(grades, nextGradeId)
      && (forall i :: 0 <= i < |attendances| ==> attendances[i].id < nextAttendanceId)
    }

    constructor (students: seq<Student>, sections: seq<Section>, enrollments: seq<Enrollment>)
      ensures Valid()
      ensures this.students == students && this.sections == sections && this.enrollments == enrollments
      ensures grades == [] && attendances == [] && nextGradeId == 1 && nextAttendanceId == 1
    {
      this.students := students;
      this.sections := sections;
      this.enrollments := enrollments;
      grades := [];
      attendances := [];
      nextGradeId := 1;
      nextAttendanceId := 1;
    }

    /** The grade write: resolve the enrollment, look up its grade row, then
        update that row or insert a new one. `lookupFails` and `writeError` are
        the backend's answers to the existing-grade lookup and to the write.
        The found row is updated by its id, as the backend does. */
    method UpsertGrade(key: EnrollmentKey, w: GradeWrite, lookupFails: bool, writeError: Option<string>)
      returns (outcome: WriteOutcome)
      requires Valid()
      modifies this
      ensures Valid()
      ensures students == old(students) && sections == old(sections) && enrollments == old(enrollments)
      ensures attendances == old(attendances) && nextAttendanceId == old(nextAttendanceId)
      ensures outcome == EnrollmentNotFound <==> Resolve(enrollments, students, sections, key).None?
      ensures outcome.WriteFailed? <==> Resolve(enrollments, students, sections, key).Some? && writeError.Some?
      ensures outcome.WriteFailed? ==> outcome.message == writeError.value
      ensures outcome != Written ==> grades == old(grades) && nextGradeId == old(nextGradeId)
      ensures outcome == Written ==>
        var m := Resolve(enrollments, students, sections, key).value;
        && grades == UpsertedGrades(old(grades), m, w, lookupFails, old(nextGradeId))
        && nextGradeId == if ExistingGrade(old(grades), m, lookupFails).None? then old(nextGradeId) + 1 else old(nextGradeId)
    {
      var resolved := Resolve(enrollments, students, sections, key);
      if resolved.None? {
        return EnrollmentNotFound;
      }
      var m := resolved.value;
      var existing := ExistingGrade(grades, m, lookupFails);
      if writeError.Some? {
        return WriteFailed(writeError.value);
      }
      if existing.Some? {
        UpdateByIdIsByPosition(grades, existing.value, w);
        UpdateKeepsIds(grades, existing.value, w, nextGradeId);
        grades := UpdatedById(grades, grades[existing.value].id, w);
      } else {
        InsertKeepsIds(grades, Inserted(nextGradeId, m, w), nextGradeId);
        grades := grades + [Inserted(nextGradeId, m, w)];
        nextGradeId := nextGradeId + 1;
      }
      outcome := Written;
    }

    /** The attendance write: resolve the enrollment, then append the mark. */
    method AppendAttendance(key: EnrollmentKey, w: AttendanceWrite, writeError: Option<string>)
      returns (outcome: WriteOutcome)
      requires Valid()
      modifies this
      ensures Valid()
      ensures students == old(students) && sections == old(sections) && enrollments == old(enrollments)
      ensures grades == old(grades) && nextGradeId == old(nextGradeId)
      ensures outcome == EnrollmentNotFound <==> Resolve(enrollments, students, sections, key).None?
      ensures outcome.WriteFailed? <==> Resolve(enrollments, students, sections, key).Some? && writeError.Some?
      ensures outcome.WriteFailed? ==> outcome.message == writeError.value
      ensures outcome != Written ==> attendances == old(attendances) && nextAttendanceId == old(nextAttendanceId)
      ensures outcome == Written ==>
        && attendances == AppendedAttendance(old(attendances), Resolve(enrollments, students, sections, key).value,
                                             w, old(nextAttendanceId))
        && nextAttendanceId == old(nextAttendanceId) + 1
    {
      var resolved := Resolve(enrollments, students, sections, key);
      if resolved.None? {
        return EnrollmentNotFound;
      }
      if writeError.Some? {
        return WriteFailed(writeError.value);
      }
      attendances := AppendedAttendance(attendances, resolved.value, w, nextAttendanceId);
      nextAttendanceId := nextAttendanceId + 1;
      outcome := Written;
    }
  }
}
