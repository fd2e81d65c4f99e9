/**
 * The registration screen: the form check that fills an error map field by
 * field, and the gate that calls `register` only on a clean form.
 */
module Registration {
  import opened Wrappers
  import opened JsString
  import opened AuthContext

  /** The form state of the screen (`RegistrationForm`). */
  datatype RegistrationForm = RegistrationForm(
    email: string,
    password: string,
    confirmPassword: string,
    dni: string,
    nombres: string,
    apellidos: string,
    telefono: string,
    genero: string,
    fechaNacimiento: string,
    rol: Role,
    codigo: Option<string>,
    codigoProfesor: Option<string>,
    idEscuela: Option<int>,
    especialidad: Option<string>,
    gradoAcademico: Option<string>)

  /** The form the screen starts with. */
  const InitialForm := RegistrationForm("", "", "", "", "", "", "", "M", "", Estudiante, None, None, None, None, None)

  /** The messages the form check can attach to a field. */
  datatype Message =
    | EmailRequired | EmailInvalid | PasswordRequired | PasswordTooShort | PasswordsDiffer
    | DniRequired | DniLength | NombresRequired | ApellidosRequired | FechaRequired
    | CodigoRequired | EscuelaRequired | CodigoProfesorRequired | EspecialidadRequired | GradoRequired

  /** The text the screen shows for each message. */
  function Text(m: Message): string {
    match m
    case EmailRequired => "El email es requerido"
    case EmailInvalid => "Email inválido"
    case PasswordRequired => "La contraseña es requerida"
    case PasswordTooShort => "La contraseña debe tener al menos 6 caracteres"
    case PasswordsDiffer => "Las contraseñas no coinciden"
    case DniRequired => "El DNI es requerido"
    case DniLength => "El DNI debe tener 8 dígitos"
    case NombresRequired => "Los nombres son requeridos"
    case ApellidosRequired => "Los apellidos son requeridos"
    case FechaRequired => "La fecha de nacimiento es requerida"
    case CodigoRequired => "El código de estudiante es requerido"
    case EscuelaRequired => "Debe seleccionar una escuela"
    case CodigoProfesorRequired => "El código de profesor es requerido"
    case EspecialidadRequired => "La especialidad es requerida"
    case GradoRequired => "El grado académico es requerido"
  }

  /** The fields an error may be attached to. */
  datatype Field =
    | EmailField | PasswordField | ConfirmPasswordField | DniField | NombresField | ApellidosField
    | FechaNacimientoField | CodigoField | IdEscuelaField | CodigoProfesorField | EspecialidadField
    | GradoAcademicoField | TelefonoField | GeneroField

  /** The key of the field in the screen's `errors` object. */
  function Key(f: Field): string {
    match f
    case EmailField => "email"
    case PasswordField => "password"
    case ConfirmPasswordField => "confirmPassword"
    case DniField => "dni"
    case NombresField => "nombres"
    case ApellidosField => "apellidos"
    case FechaNacimientoField => "fecha_nacimiento"
    case CodigoField => "codigo"
    case IdEscuelaField => "id_escuela"
    case CodigoProfesorField => "codigo_profesor"
    case EspecialidadField => "especialidad"
    case GradoAcademicoField => "grado_academico"
    case TelefonoField => "telefono"
    case GeneroField => "genero"
  }

  /** The error fields every form may get. */
  const CommonFields: set<Field> :=
    {EmailField, PasswordField, ConfirmPasswordField, DniField, NombresField, ApellidosField, FechaNacimientoField}

  /** The error fields only the given role may get. */
  function RoleFields(r: Role): set<Field> {
    match r
    case Estudiante => {CodigoField, IdEscuelaField}
    case Profesor => {CodigoProfesorField, EspecialidadField, GradoAcademicoField}
  }

  /** An optional text field that is missing or blank (`!field?.trim()`). */
  predicate MissingText(o: Option<string>) {
    o.None? || IsBlank(o.value)
  }

  /** `!field`: an optional number that is missing or zero. */
  predicate MissingNumber(o: Option<int>) {
    o.None? || o.value == 0
  }

  /** A form the screen lets through, stated field by field. */
  predicate Acceptable(f: RegistrationForm) {
    && !IsBlank(f.email) && '@' in f.email
    && !IsBlank(f.password) && |f.password| >= 6
    && f.password == f.confirmPassword
    && !IsBlank(f.dni) && |f.dni| == 8
    && !IsBlank(f.nombres) && !IsBlank(f.apellidos) && !IsBlank(f.fechaNacimiento)
    && match f.rol
       case Estudiante => !MissingText(f.codigo) && !MissingNumber(f.idEscuela)
       case Profesor =>
         !MissingText(f.codigoProfesor) && !MissingText(f.especialidad) && !MissingText(f.gradoAcademico)
  }

  // The message each rule gives, if any.

  function EmailError(email: string): Option<Message> {
    if IsBlank(email) then Some(EmailRequired)
    else if '@' !in email then Some(EmailInvalid)
    else None
  }

  function PasswordError(password: string): Option<Message> {
    if IsBlank(password) then Some(PasswordRequired)
    else if |password| < 6 then Some(PasswordTooShort)
    else None
  }

  function ConfirmError(password: string, confirmPassword: string): Option<Message> {
    if password != confirmPassword then Some(PasswordsDiffer) else None
  }

  function DniError(dni: string): Option<Message> {
    if IsBlank(dni) then Some(DniRequired)
    else if |dni| != 8 then Some(DniLength)
    else None
  }

  function RequiredError(value: string, m: Message): Option<Message> {
    if IsBlank(value) then Some(m) else None
  }

  function OptionalRequiredError(value: Option<string>, m: Message): Option<Message> {
    if MissingText(value) then Some(m) else None
  }

  function SchoolError(idEscuela: Option<int>): Option<Message> {
    if MissingNumber(idEscuela) then Some(EscuelaRequired) else None
  }

  /** The message each field of the form earns, if any: the reference the
      screen's check is measured against, one field at a time. The role
      fields of the role not chosen, the phone and the gender earn nothing. */
  function FieldError(form: RegistrationForm, f: Field): Option<Message> {
    var student := form.rol == Estudiante;
    match f
    case EmailField => EmailError(form.email)
    case PasswordField => PasswordError(form.password)
    case ConfirmPasswordField => ConfirmError(form.password, form.confirmPassword)
    case DniField => DniError(form.dni)
    case NombresField => RequiredError(form.nombres, NombresRequired)
    case ApellidosField => RequiredError(form.apellidos, ApellidosRequired)
    case FechaNacimientoField => RequiredError(form.fechaNacimiento, FechaRequired)
    case CodigoField => if student then OptionalRequiredError(form.codigo, CodigoRequired) else None
    case IdEscuelaField => if student then SchoolError(form.idEscuela) else None
    case CodigoProfesorField =>
      if student then None else OptionalRequiredError(form.codigoProfesor, CodigoProfesorRequired)
    case EspecialidadField =>
      if student then None else OptionalRequiredError(form.especialidad, EspecialidadRequired)
    case GradoAcademicoField =>
      if student then None else OptionalRequiredError(form.gradoAcademico, GradoRequired)
    case TelefonoField => None
    case GeneroField => None
  }

  /** The order in which `validateForm` looks at the fields: the common
      ones, then the student's, then the professor's; the phone and the
      gender are never looked at. */
  function FieldAt(k: nat): Field {
    if k == 0 then EmailField
    else if k == 1 then PasswordField
    else if k == 2 then ConfirmPasswordField
    else if k == 3 then DniField
    else if k == 4 then NombresField
    else if k == 5 then ApellidosField
    else if k == 6 then FechaNacimientoField
    else if k == 7 then CodigoField
    else if k == 8 then IdEscuelaField
    else if k == 9 then CodigoProfesorField
    else if k == 10 then EspecialidadField
    else if k == 11 then GradoAcademicoField
    else if k == 12 then TelefonoField
    else GeneroField
  }

  /** The number of fields. */
  const FieldCount: nat := 14

  /** The position of a field in that order. */
  function IndexOf(f: Field): (k: nat)
    ensures k < FieldCount && FieldAt(k) == f
  {
    match f
    case EmailField => 0
    case PasswordField => 1
    case ConfirmPasswordField => 2
    case DniField => 3
    case NombresField => 4
    case ApellidosField => 5
    case FechaNacimientoField => 6
    case CodigoField => 7
    case IdEscuelaField => 8
    case CodigoProfesorField => 9
    case EspecialidadField => 10
    case GradoAcademicoField => 11
    case TelefonoField => 12
    case GeneroField => 13
  }

  lemma FieldAtInjective(j: nat, f: Field)
    requires j < FieldCount && FieldAt(j) == f
    ensures j == IndexOf(f)
  {
  }

  /** `errors` with the message stored under the field's key, if there is one. */
  function Put(errors: map<Field, Message>, f: Field, e: Option<Message>): map<Field, Message> {
    if e.Some? then errors[f := e.value] else errors
  }

  /** The error object after checking the first `k` fields in order, starting from `{}`. */
  function ErrorsUpTo(form: RegistrationForm, k: nat): map<Field, Message> {
    if k == 0 then map[]
    else Put(ErrorsUpTo(form, k - 1), FieldAt(k - 1), FieldError(form, FieldAt(k - 1)))
  }

  /** After the first `k` checks, a field has an entry exactly when it was
      checked and earned a message, and the entry is that message. */
  lemma {:induction false} ErrorsUpToEntries(form: RegistrationForm, k: nat, f: Field)
    requires k <= FieldCount
    ensures f in ErrorsUpTo(form, k) <==> IndexOf(f) < k && FieldError(form, f).Some?
    ensures f in ErrorsUpTo(form, k) ==> ErrorsUpTo(form, k)[f] == FieldError(form, f).value
  {
    if k > 0 {
      ErrorsUpToEntries(form, k - 1, f);
      if FieldAt(k - 1) == f {
        FieldAtInjective(k - 1, f);
      }
    }
  }

  /** A form is acceptable exactly when no field earns a message. */
  lemma AcceptableIffNoError(form: RegistrationForm)
    ensures Acceptable(form) <==> forall f :: FieldError(form, f).None?
  {
    if !Acceptable(form) {
      if IsBlank(form.email) || '@' !in form.email { assert FieldError(form, EmailField).Some?; }
      else if IsBlank(form.password) || |form.password| < 6 { assert FieldError(form, PasswordField).Some?; }
      else if form.password != form.confirmPassword { assert FieldError(form, ConfirmPasswordField).Some?; }
      else if IsBlank(form.dni) || |form.dni| != 8 { assert FieldError(form, DniField).Some?; }
      else if IsBlank(form.nombres) { assert FieldError(form, NombresField).Some?; }
      else if IsBlank(form.apellidos) { assert FieldError(form, ApellidosField).Some?; }
      else if IsBlank(form.fechaNacimiento) { assert FieldError(form, FechaNacimientoField).Some?; }
      else if form.rol == Estudiante {
        if MissingText(form.codigo) { assert FieldError(form, CodigoField).Some?; }
        else { assert FieldError(form, IdEscuelaField).Some?; }
      } else {
        if MissingText(form.codigoProfesor) { assert FieldError(form, CodigoProfesorField).Some?; }
        else if MissingText(form.especialidad) { assert FieldError(form, EspecialidadField).Some?; }
        else { assert FieldError(form, GradoAcademicoField).Some?; }
      }
    }
  }

  /** Only the fields of the chosen role, and never the phone or gender, can earn a message. */
  lemma ErrorFieldsOfRole(form: RegistrationForm, f: Field)
    requires FieldError(form, f).Some?
    ensures f in CommonFields + RoleFields(form.rol)
    ensures f != TelefonoField && f != GeneroField
  {
  }

  // The checks of `validateForm`, one rule each, deciding `!s.trim()` through `TrimIsEmpty`.

  method CheckEmail(email: string, errors: map<Field, Message>) returns (r: map<Field, Message>)
    ensures r == Put(errors, EmailField, EmailError(email))
  {
    r := errors;
    var blank := TrimIsEmpty(email);
    if blank {
      r := r[EmailField := EmailRequired];
    } else if '@' !in email {
      r := r[EmailField := EmailInvalid];
    }
  }

  method CheckPassword(password: string, errors: map<Field, Message>) returns (r: map<Field, Message>)
    ensures r == Put(errors, PasswordField, PasswordError(password))
  {
    r := errors;
    var blank := TrimIsEmpty(password);
    if blank {
      r := r[PasswordField := PasswordRequired];
    } else if |password| < 6 {
      r := r[PasswordField := PasswordTooShort];
    }
  }

  method CheckDni(dni: string, errors: map<Field, Message>) returns (r: map<Field, Message>)
    ensures r == Put(errors, DniField, DniError(dni))
  {
    r := errors;
    var blank := TrimIsEmpty(dni);
    if blank {
      r := r[DniField := DniRequired];
    } else if |dni| != 8 {
      r := r[DniField := DniLength];
    }
  }

  method CheckRequired(value: string, f: Field, m: Message, errors: map<Field, Message>)
    returns (r: map<Field, Message>)
    ensures r == Put(errors, f, RequiredError(value, m))
  {
    r := errors;
    var blank := TrimIsEmpty(value);
    if blank {
      r := r[f := m];
    }
  }

  method CheckOptionalRequired(value: Option<string>, f: Field, m: Message, errors: map<Field, Message>)
    returns (r: map<Field, Message>)
    ensures r == Put(errors, f, OptionalRequiredError(value, m))
  {
    if value.None? {
      assert OptionalRequiredError(value, m) == Some(m);
      r := errors[f := m];
    } else {
      var blank := TrimIsEmpty(value.value);
      assert OptionalRequiredError(value, m) == RequiredError(value.value, m);
      r := if blank then errors[f := m] else errors;
    }
  }

  /** The checks every form goes through, in the order `validateForm` makes them. */
  method CheckCommonFields(form: RegistrationForm) returns (errors: map<Field, Message>)
    ensures errors == ErrorsUpTo(form, 7)
  {
    errors := map[];
    errors := CheckEmail(form.email, errors);
    assert errors == ErrorsUpTo(form, 1);
    errors := CheckPassword(form.password, errors);
    assert errors == ErrorsUpTo(form, 2);
    if form.password != form.confirmPassword {
      errors := errors[ConfirmPasswordField := PasswordsDiffer];
    }
    assert errors == ErrorsUpTo(form, 3);
    errors := CheckDni(form.dni, errors);
    assert errors == ErrorsUpTo(form, 4);
    errors := CheckRequired(form.nombres, NombresField, NombresRequired, errors);
    assert errors == ErrorsUpTo(form, 5);
    errors := CheckRequired(form.apellidos, ApellidosField, ApellidosRequired, errors);
    assert errors == ErrorsUpTo(form, 6);
    errors := CheckRequired(form.fechaNacimiento, FechaNacimientoField, FechaRequired, errors);
  }

  /** The phone and the gender, checked last in the order, never add an entry. */
  lemma UncheckedTail(form: RegistrationForm)
    ensures ErrorsUpTo(form, FieldCount) == ErrorsUpTo(form, 12)
  {
    assert ErrorsUpTo(form, 13) == ErrorsUpTo(form, 12);
  }

  /** A student's form earns nothing for the three professor fields. */
  lemma StudentSkipsProfessorFields(form: RegistrationForm)
    requires form.rol == Estudiante
    ensures ErrorsUpTo(form, 12) == ErrorsUpTo(form, 9)
  {
    assert ErrorsUpTo(form, 10) == ErrorsUpTo(form, 9);
    assert ErrorsUpTo(form, 11) == ErrorsUpTo(form, 10);
  }

  /** A professor's form earns nothing for the two student fields. */
  lemma ProfessorSkipsStudentFields(form: RegistrationForm)
    requires form.rol == Profesor
    ensures ErrorsUpTo(form, 9) == ErrorsUpTo(form, 7)
  {
    assert ErrorsUpTo(form, 8) == ErrorsUpTo(form, 7);
  }

  /** The student's checks: the code, then the school, where 0 counts as none. */
  method CheckStudentFields(form: RegistrationForm, errors: map<Field, Message>) returns (r: map<Field, Message>)
    requires form.rol == Estudiante && errors == ErrorsUpTo(form, 7)
    ensures r == ErrorsUpTo(form, 9)
  {
    r := CheckOptionalRequired(form.codigo, CodigoField, CodigoRequired, errors);
    assert r == ErrorsUpTo(form, 8);
    if form.idEscuela.None? || form.idEscuela.value == 0 {
      r := r[IdEscuelaField := EscuelaRequired];
    }
  }

  /** The professor's checks: the code, the speciality and the degree. */
  method CheckProfessorFields(form: RegistrationForm, errors: map<Field, Message>) returns (r: map<Field, Message>)
    requires form.rol == Profesor && errors == ErrorsUpTo(form, 9)
    ensures r == ErrorsUpTo(form, 12)
  {
    r := CheckOptionalRequired(form.codigoProfesor, CodigoProfesorField, CodigoProfesorRequired, errors);
    assert r == ErrorsUpTo(form, 10);
    r := CheckOptionalRequired(form.especialidad, EspecialidadField, EspecialidadRequired, r);
    assert r == ErrorsUpTo(form, 11);
    r := CheckOptionalRequired(form.gradoAcademico, GradoAcademicoField, GradoRequired, r);
  }

  /** The checks of the chosen role: the student's code and school, or the
      professor's code, speciality and degree. */
  method CheckRoleFields(form: RegistrationForm, errors: map<Field, Message>) returns (r: map<Field, Message>)
    requires errors == ErrorsUpTo(form, 7)
    ensures r == ErrorsUpTo(form, FieldCount)
  {
    UncheckedTail(form);
    if form.rol == Estudiante {
      r := CheckStudentFields(form, errors);
      StudentSkipsProfessorFields(form);
    } else {
      ProfessorSkipsStudentFields(form);
      r := CheckProfessorFields(form, errors);
    }
  }

  /** `validateForm`: fills `newErrors` check by check and reports whether it
      stayed empty. Each field ends up with exactly the message `FieldError`
      gives it, and the form passes exactly when it is `Acceptable`. */
  method ValidateForm(form: RegistrationForm) returns (newErrors: map<Field, Message>, ok: bool)
    ensures forall f :: f in newErrors <==> FieldError(form, f).Some?
    ensures forall f :: f in newErrors ==> newErrors[f] == FieldError(form, f).value
    ensures ok <==> newErrors == map[]
    ensures ok <==> Acceptable(form)
  {
    newErrors := CheckCommonFields(form);
    newErrors := CheckRoleFields(form, newErrors);
    forall f
      ensures f in newErrors <==> FieldError(form, f).Some?
      ensures f in newErrors ==> newErrors[f] == FieldError(form, f).value
    {
      ErrorsUpToEntries(form, FieldCount, f);
    }

    ok := |newErrors| == 0;
    AcceptableIffNoError(form);
    if !ok {
      var f :| f in newErrors;
    }
  }

  /** The form as `register` receives it: every field the form holds, with
      the phone and the gender always present; only the confirmation is
      not part of it. */
  function ToRegisterData(f: RegistrationForm): (d: RegisterData)
    ensures d.telefono.Some? && d.genero.Some?
    ensures FormOf(d, f.confirmPassword) == f
  {
    RegisterData(f.email, f.password, f.dni, f.nombres, f.apellidos, Some(f.telefono), Some(f.genero),
                 f.fechaNacimiento, f.rol, f.codigo, f.codigoProfesor, f.idEscuela, f.especialidad,
                 f.gradoAcademico)
  }

  /** The form that sends `d`, given its confirmation. */
  function FormOf(d: RegisterData, confirmPassword: string): RegistrationForm {
    RegistrationForm(d.email, d.password, confirmPassword, d.dni, d.nombres, d.apellidos,
                     d.telefono.GetOr(""), d.genero.GetOr(""), d.fechaNacimiento, d.rol, d.codigo,
                     d.codigoProfesor, d.idEscuela, d.especialidad, d.gradoAcademico)
  }

  /** What `register` receives from an accepted form: an e-mail with an `@`, a
      password of at least 6 characters, an 8-character DNI, non-blank names
      and birth date, and the role's own fields present and non-blank (a
      student's school not 0). */
  lemma AcceptedFormSendsCompleteData(f: RegistrationForm)
    requires Acceptable(f)
    ensures var d := ToRegisterData(f);
      && !IsBlank(d.email) && '@' in d.email
      && |d.password| >= 6 && |d.dni| == 8
      && !IsBlank(d.nombres) && !IsBlank(d.apellidos) && !IsBlank(d.fechaNacimiento)
      && (d.rol == Estudiante ==>
            d.codigo.Some? && !IsBlank(d.codigo.value) && d.idEscuela.Some? && d.idEscuela.value != 0)
      && (d.rol == Profesor ==>
            && d.codigoProfesor.Some? && !IsBlank(d.codigoProfesor.value)
            && d.especialidad.Some? && !IsBlank(d.especialidad.value)
            && d.gradoAcademico.Some? && !IsBlank(d.gradoAcademico.value))
  {
  }

  /** The alert the screen raises after `register` answered. */
  datatype Alert = NoAlert | RegisteredAlert | FailedAlert

  class RegistroScreen {
    var form: RegistrationForm
    var errors: map<Field, Message>
    var showVerificationMessage: bool
    var registeredEmail: string

    constructor ()
      ensures form == InitialForm && errors == map[]
      ensures !showVerificationMessage && registeredEmail == ""
    {
      form := InitialForm;
      errors := map[];
      showVerificationMessage := false;
      registeredEmail := "";
    }

    /** `setForm`, as the inputs call it. */
    method SetForm(f: RegistrationForm)
      modifies this
      ensures form == f && errors == old(errors)
      ensures showVerificationMessage == old(showVerificationMessage) && registeredEmail == old(registeredEmail)
    {
      form := f;
    }

    /** `handleRegister`: `result` is what `register(form)` answers, and `sent`
        what it was given. Nothing is sent unless the form passes
        `validateForm`; a success that needs verification shows the
        verification message for the form's e-mail. */
    method HandleRegister(result: RegisterResult) returns (sent: Option<RegisterData>, alert: Alert)
      modifies this
      ensures form == old(form)
      ensures sent == if Acceptable(form) then Some(ToRegisterData(form)) else None
      ensures sent.Some? <==> errors == map[]
      ensures forall f :: f in errors <==> FieldError(form, f).Some?
      ensures forall f :: f in errors ==> errors[f] == FieldError(form, f).value
      ensures sent.None? ==>
        alert == NoAlert && showVerificationMessage == old(showVerificationMessage)
        && registeredEmail == old(registeredEmail)
      ensures sent.Some? && result.success && result.needsVerification == Some(true) ==>
        alert == NoAlert && showVerificationMessage && registeredEmail == form.email
      ensures sent.Some? && result.success && result.needsVerification != Some(true) ==>
        alert == RegisteredAlert && showVerificationMessage == old(showVerificationMessage)
        && registeredEmail == old(registeredEmail)
      ensures sent.Some? && !result.success ==>
        alert == FailedAlert && showVerificationMessage == old(showVerificationMessage)
        && registeredEmail == old(registeredEmail)
    {
      var newErrors, ok := ValidateForm(form);
      errors := newErrors;
      alert := NoAlert;
      if !ok {
        sent := None;
        return;
      }
      sent := Some(ToRegisterData(form));
      if result.success {
        if result.needsVerification == Some(true) {
          registeredEmail := form.email;
          showVerificationMessage := true;
        } else {
          alert := RegisteredAlert;
        }
      } else {
        alert := FailedAlert;
      }
    }
  }
}
