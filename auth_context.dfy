/**
 * The session provider of the client (`AuthProvider`): the signed-in `user`,
 * the `isLoading` flag and the `isMounted` guard, changed by auth events and by
 * the login, register and logout actions. Every backend answer is a parameter.
 */
module AuthContext {
  import opened Wrappers
  import opened Database

  /** The two roles a registration can ask for. */
  datatype Role = Estudiante | Profesor

  /** What the registration screen hands to `register`. */
  datatype RegisterData = RegisterData(
    email: string,
    password: string,
    dni: string,
    nombres: string,
    apellidos: string,
    telefono: Option<string>,
    genero: Option<string>,
    fechaNacimiento: string,
    rol: Role,
    codigo: Option<string>,
    codigoProfesor: Option<string>,
    idEscuela: Option<int>,
    especialidad: Option<string>,
    gradoAcademico: Option<string>)

  /** `{ success, needsVerification? }`. */
  datatype RegisterResult = RegisterResult(success: bool, needsVerification: Option<bool>)

  /** The part of an auth session's user that the provider reads. */
  datatype SessionUser = SessionUser(id: string, emailConfirmedAt: Option<string>)

  /** `email_confirmed_at` is truthy: present and not the empty string. */
  predicate Confirmed(u: SessionUser) {
    u.emailConfirmedAt.Some? && u.emailConfirmedAt.value != ""
  }

  /** The `usuarios` columns read for the profile. */
  datatype ProfileRow = ProfileRow(id: string, email: string, nombres: string, apellidos: string, rol: string)

  /** The answer of the profile query made with `maybeSingle()`. */
  datatype ProfileFetch = ProfileError(message: string) | NoProfile | Profile(row: ProfileRow)

  datatype StudentData = StudentData(codigo: string, idEscuela: int)
  datatype ProfessorData = ProfessorData(codigoProfesor: string)

  /** Every backend answer `loadUserData` may receive: the profile, and the
      role lookup in `estudiantes` or `profesores` (limited to one row). */
  datatype UserDataFetch = UserDataFetch(
    profile: ProfileFetch,
    students: QueryResult<StudentData>,
    professors: QueryResult<ProfessorData>)

  /** The answer of `signInWithPassword`. */
  datatype SignInResult = SignInError(message: string) | SignedIn(user: Option<SessionUser>)

  /** The answer of `signUp`. */
  datatype SignUpResult = SignUpError(message: string) | SignedUp(user: Option<SessionUser>)

  /** How `signOut` ends: normally, with an error result, or by throwing. */
  datatype SignOutAnswer = SignOutDone | SignOutError | SignOutThrew

  function FirstStudent(rol: string, students: QueryResult<StudentData>): Option<StudentData> {
    if rol == "estudiante" && students.Rows? && |students.rows| > 0 then Some(students.rows[0]) else None
  }

  function FirstProfessor(rol: string, professors: QueryResult<ProfessorData>): Option<ProfessorData> {
    if rol == "profesor" && professors.Rows? && |professors.rows| > 0 then Some(professors.rows[0]) else None
  }

  /** The user `loadUserData` settles on: none when the profile query fails or
      finds no row; otherwise the profile, with the student's code and school
      or the professor's code attached only when that role row was found. A
      failing role lookup leaves the role fields unset and never drops the user. */
  function LoadedUser(fetch: UserDataFetch): (u: Option<AuthUser>)
    ensures u.Some? <==> fetch.profile.Profile?
    ensures u.Some? ==>
      var p := fetch.profile.row;
      && u.value.id == p.id && u.value.email == p.email
      && u.value.nombres == p.nombres && u.value.apellidos == p.apellidos
      && u.value.rol == p.rol
    ensures u.Some? ==>
      var p := fetch.profile.row;
      && (u.value.codigo.Some? <==> p.rol == "estudiante" && fetch.students.Rows? && |fetch.students.rows| > 0)
      && (u.value.idEscuela.Some? <==> u.value.codigo.Some?)
      && (u.value.codigoProfesor.Some? <==> p.rol == "profesor" && fetch.professors.Rows? && |fetch.professors.rows| > 0)
    ensures u.Some? && u.value.codigo.Some? ==>
      u.value.codigo.value == fetch.students.rows[0].codigo
      && u.value.idEscuela.value == fetch.students.rows[0].idEscuela
    ensures u.Some? && u.value.codigoProfesor.Some? ==>
      u.value.codigoProfesor.value == fetch.professors.rows[0].codigoProfesor
  {
    match fetch.profile
    case Profile(p) =>
      var st := FirstStudent(p.rol, fetch.students);
      var pr := FirstProfessor(p.rol, fetch.professors);
      Some(AuthUser(
        p.id, p.email, p.nombres, p.apellidos, p.rol,
        if st.Some? then Some(st.value.codigo) else None,
        if pr.Some? then Some(pr.value.codigoProfesor) else None,
        if st.Some? then Some(st.value.idEscuela) else None))
    case _ => None
  }

  /** What `register` reports: failure when any step fails; on success,
      whether the new account still has to confirm its e-mail address. */
  function RegisterOutcome(signUp: SignUpResult, usuariosError: Option<string>, roleError: Option<string>): (r: RegisterResult)
    ensures r.success <==> signUp.SignedUp? && signUp.user.Some? && usuariosError.None? && roleError.None?
    ensures !r.success ==> r.needsVerification.None?
    ensures r.success ==> r.needsVerification == Some(!Confirmed(signUp.user.value))
  {
    if signUp.SignUpError? || signUp.user.None? then RegisterResult(false, None)
    else if usuariosError.Some? || roleError.Some? then RegisterResult(false, None)
    else if !Confirmed(signUp.user.value) then RegisterResult(true, Some(true))
    else RegisterResult(true, Some(false))
  }

  class AuthProvider {
    var user: Option<AuthUser>
    var isLoading: bool
    var isMounted: bool

    /** Initial state: no user, loading, not yet mounted. */
    constructor ()
      ensures user == None && isLoading && !isMounted
    {
      user := None;
      isLoading := true;
      isMounted := false;
    }

    /** The effect's set-up: the mounted guard is raised. */
    method Mount()
      modifies this
      ensures isMounted && user == old(user) && isLoading == old(isLoading)
    {
      isMounted := true;
    }

    /** The effect's clean-up: later answers change nothing. */
    method Unmount()
      modifies this
      ensures !isMounted && user == old(user) && isLoading == old(isLoading)
    {
      isMounted := false;
    }

    /** `loadUserData`: builds the user step by step and stores it if still mounted. */
    method LoadUserData(fetch: UserDataFetch)
      modifies this
      ensures isMounted == old(isMounted) && isLoading == old(isLoading)
      ensures user == if old(isMounted) then LoadedUser(fetch) else old(user)
    {
      match fetch.profile {
        case ProfileError(_) =>
          if isMounted { user := None; }
        case NoProfile =>
          if isMounted { user := None; }
        case Profile(p) =>
          var authUser := AuthUser(p.id, p.email, p.nombres, p.apellidos, p.rol, None, None, None);
          if p.rol == "estudiante" {
            match fetch.students {
              case Failed(_) =>
              case Rows(rs) =>
                if |rs| > 0 {
                  authUser := authUser.(codigo := Some(rs[0].codigo));
                  authUser := authUser.(idEscuela := Some(rs[0].idEscuela));
                }
            }
          } else if p.rol == "profesor" {
            match fetch.professors {
              case Failed(_) =>
              case Rows(rs) =>
                if |rs| > 0 {
                  authUser := authUser.(codigoProfesor := Some(rs[0].codigoProfesor));
                }
            }
          }
          if isMounted { user := Some(authUser); }
      }
    }

    /** The `onAuthStateChange` listener. */
    method OnAuthStateChange(event: string, session: Option<SessionUser>, fetch: UserDataFetch)
      modifies this
      ensures isMounted == old(isMounted)
      ensures !old(isMounted) ==> user == old(user) && isLoading == old(isLoading)
      ensures old(isMounted) ==> !isLoading
      ensures old(isMounted) && event == "SIGNED_OUT" ==> user == None
      ensures old(isMounted) && event == "SIGNED_IN" && session.Some? ==>
        user == if Confirmed(session.value) then LoadedUser(fetch) else None
      ensures old(isMounted) && !(event == "SIGNED_IN" && session.Some?) && event != "SIGNED_OUT" ==>
        user == old(user)
    {
      if !isMounted { return; }
      if event == "SIGNED_IN" && session.Some? {
        if Confirmed(session.value) {
          LoadUserData(fetch);
        } else {
          if isMounted { user := None; }
        }
      } else if event == "SIGNED_OUT" {
        if isMounted { user := None; }
      }
      if isMounted { isLoading := false; }
    }

    /** `checkSession`: an existing confirmed session loads the user; loading ends either way. */
    method CheckSession(session: Option<SessionUser>, fetch: UserDataFetch)
      modifies this
      ensures isMounted == old(isMounted)
      ensures !old(isMounted) ==> user == old(user) && isLoading == old(isLoading)
      ensures old(isMounted) ==> !isLoading
      ensures old(isMounted) ==>
        user == if session.Some? && Confirmed(session.value) then LoadedUser(fetch) else old(user)
    {
      if session.Some? && Confirmed(session.value) && isMounted {
        LoadUserData(fetch);
      }
      if isMounted { isLoading := false; }
    }

    /** `login`: true unless sign-in fails or the account is unconfirmed.
        It is also true when the profile is missing, leaving no user. */
    method Login(signIn: SignInResult, fetch: UserDataFetch) returns (ok: bool)
      modifies this
      ensures isMounted == old(isMounted)
      ensures ok <==> signIn.SignedIn? && (signIn.user.None? || Confirmed(signIn.user.value))
      ensures old(isMounted) ==> !isLoading
      ensures !old(isMounted) ==> isLoading == old(isLoading) && user == old(user)
      ensures old(isMounted) && ok && signIn.user.Some? ==> user == LoadedUser(fetch)
      ensures !ok ==> user == old(user)
      ensures signIn.SignedIn? && signIn.user.None? ==> user == old(user)
    {
      if isMounted { isLoading := true; }
      match signIn {
        case SignInError(_) =>
          ok := false;
        case SignedIn(u) =>
          if u.Some? && Confirmed(u.value) && isMounted {
            LoadUserData(fetch);
            ok := true;
          } else if u.Some? && !Confirmed(u.value) {
            ok := false;
          } else {
            ok := true;
          }
      }
      if isMounted { isLoading := false; }
    }

    /** `register`: the result of the sign-up and the two inserts; loading ends either way. */
    method Register(data: RegisterData, signUp: SignUpResult, usuariosError: Option<string>, roleError: Option<string>)
      returns (result: RegisterResult)
      modifies this
      ensures result == RegisterOutcome(signUp, usuariosError, roleError)
      ensures user == old(user) && isMounted == old(isMounted)
      ensures isLoading == if old(isMounted) then false else old(isLoading)
    {
      if isMounted { isLoading := true; }
      if signUp.SignUpError? || signUp.user.None? {
        result := RegisterResult(false, None);
      } else if usuariosError.Some? {
        result := RegisterResult(false, None);
      } else if roleError.Some? {
        result := RegisterResult(false, None);
      } else if !Confirmed(signUp.user.value) {
        result := RegisterResult(true, Some(true));
      } else {
        result := RegisterResult(true, Some(false));
      }
      if isMounted { isLoading := false; }
    }

    /** `logout`: the user is cleared before signing out, whatever sign-out answers. */
    method Logout(signOut: SignOutAnswer)
      modifies this
      ensures isMounted == old(isMounted)
      ensures old(isMounted) ==> user == None && !isLoading
      ensures !old(isMounted) ==> user == old(user) && isLoading == old(isLoading)
    {
      if isMounted { isLoading := true; }
      if isMounted { user := None; }
      if signOut == SignOutThrew {
        if isMounted { user := None; }
      }
      if isMounted { isLoading := false; }
    }
  }
}
