/**
 * The `auth` edge function: login, which shapes the user object from the
 * profile row and its embedded role rows, and register, which creates the
 * auth account and then the profile and role rows, deleting the account
 * again when a later insert fails. Backend answers are parameters.
 */
module AuthFunction {
  import opened Wrappers
  import opened Database
  import opened AuthContext

  datatype Body =
    | Text(text: string)
    | ErrorBody(error: string)
    | LoggedIn(user: AuthUser, session: string)
    | Registered(message: string, userId: string)

  datatype Response = Response(status: int, body: Body)

  // Login.

  /** The answer of `signInWithPassword` for the body's e-mail and password. */
  datatype SignInAnswer = SignInFailed(message: string) | SignInOk(userId: string, session: string)

  /** A `usuarios` row with its embedded `estudiantes` and `profesores` rows. */
  datatype UserRecord = UserRecord(
    id: string, email: string, nombres: string, apellidos: string, rol: string,
    estudiantes: seq<StudentData>, profesores: seq<ProfessorData>)

  /** The answer of the profile lookup with `.single()`. */
  datatype UserLookup = LookupFailed(message: string) | Found(record: UserRecord)

  /** The `user` object of a login: the profile's columns, the code and school
      of the first student row and the code of the first professor row, each
      undefined when there is no such row, whatever the role. */
  function LoginUser(rec: UserRecord): (u: AuthUser)
    ensures u.id == rec.id && u.email == rec.email && u.nombres == rec.nombres
    ensures u.apellidos == rec.apellidos && u.rol == rec.rol
    ensures u.codigo.Some? <==> |rec.estudiantes| > 0
    ensures u.idEscuela.Some? <==> |rec.estudiantes| > 0
    ensures u.codigoProfesor.Some? <==> |rec.profesores| > 0
    ensures |rec.estudiantes| > 0 ==>
      u.codigo.value == rec.estudiantes[0].codigo && u.idEscuela.value == rec.estudiantes[0].idEscuela
    ensures |rec.profesores| > 0 ==> u.codigoProfesor.value == rec.profesores[0].codigoProfesor
  {
    AuthUser(rec.id, rec.email, rec.nombres, rec.apellidos, rec.rol,
      if |rec.estudiantes| > 0 then Some(rec.estudiantes[0].codigo) else None,
      if |rec.profesores| > 0 then Some(rec.profesores[0].codigoProfesor) else None,
      if |rec.estudiantes| > 0 then Some(rec.estudiantes[0].idEscuela) else None)
  }

  /** The same record as the client's session provider receives it. */
  function AsClientFetch(rec: UserRecord): UserDataFetch {
    UserDataFetch(
      Profile(ProfileRow(rec.id, rec.email, rec.nombres, rec.apellidos, rec.rol)),
      Rows(rec.estudiantes), Rows(rec.profesores))
  }

  /** When a user has only the role rows of its own role, the server's login
      user and the client's loaded user agree. */
  lemma LoginUserAgreesWithClient(rec: UserRecord)
    requires rec.rol == "estudiante" ==> rec.profesores == []
    requires rec.rol == "profesor" ==> rec.estudiantes == []
    requires rec.rol != "estudiante" && rec.rol != "profesor" ==> rec.estudiantes == [] && rec.profesores == []
    ensures LoadedUser(AsClientFetch(rec)) == Some(LoginUser(rec))
  {
  }

  /** The server attaches a student row even to a professor, which the client does not. */
  lemma ServerIgnoresRole(rec: UserRecord)
    requires rec.rol == "profesor" && |rec.estudiantes| > 0
    ensures LoginUser(rec).codigo.Some?
    ensures LoadedUser(AsClientFetch(rec)).value.codigo.None?
  {
  }

  /** The response of a login. */
  function LoginResponse(signIn: SignInAnswer, lookup: UserLookup): (r: Response)
    ensures r.status == 401 <==> signIn.SignInFailed?
    ensures r.status == 401 ==> r.body == ErrorBody("Invalid credentials")
    ensures r.status == 404 <==> signIn.SignInOk? && lookup.LookupFailed?
    ensures r.status == 404 ==> r.body == ErrorBody("User data not found")
    ensures r.status == 200 <==> signIn.SignInOk? && lookup.Found?
    ensures r.status == 200 ==> r.body == LoggedIn(LoginUser(lookup.record), signIn.session)
  {
    match signIn
    case SignInFailed(_) => Response(401, ErrorBody("Invalid credentials"))
    case SignInOk(_, session) =>
      match lookup
      case LookupFailed(_) => Response(404, ErrorBody("User data not found"))
      case Found(rec) => Response(200, LoggedIn(LoginUser(rec), session))
  }

  // Register.

  /** The JSON body of a register request; the optional fields may be absent. */
  datatype RegisterRequest = RegisterRequest(
    email: string, password: string, dni: string, nombres: string, apellidos: string,
    telefono: Option<string>, genero: Option<string>, fechaNacimiento: string, rol: string,
    codigo: Option<string>, codigoProfesor: Option<string>, idEscuela: Option<int>,
    especialidad: Option<string>, gradoAcademico: Option<string>)

  /** The rows register inserts. The password column holds a fixed placeholder. */
  datatype UsuarioRow = UsuarioRow(
    id: string, email: string, password: string, dni: string, nombres: string, apellidos: string,
    telefono: Option<string>, genero: Option<string>, fechaNacimiento: string, rol: string)
  datatype EstudianteRow = EstudianteRow(id: string, codigo: Option<string>, idEscuela: Option<int>)
  datatype ProfesorRow = ProfesorRow(
    id: string, codigoProfesor: Option<string>, especialidad: Option<string>, gradoAcademico: Option<string>)

  function UsuarioOf(id: string, r: RegisterRequest): UsuarioRow {
    UsuarioRow(id, r.email, "hashed", r.dni, r.nombres, r.apellidos, r.telefono, r.genero, r.fechaNacimiento, r.rol)
  }

  /** The answer of `auth.admin.createUser`. */
  datatype CreateAnswer = CreateFailed(message: string) | Created(userId: string)

  /** Where a registration stops: at the account, at the profile row, at the role row, or nowhere. */
  datatype Stage = NotCreated | ProfileFailed | RoleFailed | Completed

  /** Only the two known roles have a role table to insert into. */
  predicate HasRoleTable(rol: string) {
    rol == "estudiante" || rol == "profesor"
  }

  function StageOf(created: CreateAnswer, usuariosError: Option<string>, roleError: Option<string>, rol: string)
    : (s: Stage)
    ensures s == NotCreated <==> created.CreateFailed?
    ensures s == ProfileFailed <==> created.Created? && usuariosError.Some?
    ensures s == RoleFailed <==> created.Created? && usuariosError.None? && HasRoleTable(rol) && roleError.Some?
    ensures s == Completed <==> created.Created? && usuariosError.None? && (!HasRoleTable(rol) || roleError.None?)
  {
    if created.CreateFailed? then NotCreated
    else if usuariosError.Some? then ProfileFailed
    else if HasRoleTable(rol) && roleError.Some? then RoleFailed
    else Completed
  }

  /** `auth.admin.deleteUser(id)`: the accounts without `id`. */
  function RemoveId(accounts: seq<string>, id: string): (r: seq<string>)
    ensures id !in r
    ensures forall x :: x in r <==> x in accounts && x != id
  {
    if accounts == [] then []
    else if accounts[0] == id then RemoveId(accounts[1..], id)
    else [accounts[0]] + RemoveId(accounts[1..], id)
  }

  /** Deleting a freshly created account restores the accounts as they were. */
  lemma {:induction false} RemoveCreated(accounts: seq<string>, id: string)
    requires id !in accounts
    ensures RemoveId(accounts + [id], id) == accounts
  {
    if accounts == [] {
      assert [id][1..] == [];
    } else {
      assert (accounts + [id])[1..] == accounts[1..] + [id];
      RemoveCreated(accounts[1..], id);
      assert [accounts[0]] + accounts[1..] == accounts;
    }
  }

  /** The auth accounts after a registration: the new one stays only when the registration completes. */
  function AccountsAfter(accounts: seq<string>, created: CreateAnswer, stage: Stage): seq<string>
    requires stage != NotCreated ==> created.Created?
  {
    match stage
    case NotCreated => accounts
    case Completed => accounts + [created.userId]
    case _ => RemoveId(accounts + [created.userId], created.userId)
  }

  /** The `usuarios` table after a registration: the profile row is inserted
      unless its own insert failed, and stays when the role insert fails. */
  function UsuariosAfter(usuarios: seq<UsuarioRow>, created: CreateAnswer, r: RegisterRequest, stage: Stage)
    : seq<UsuarioRow>
    requires stage != NotCreated ==> created.Created?
  {
    if stage == RoleFailed || stage == Completed then usuarios + [UsuarioOf(created.userId, r)] else usuarios
  }

  function EstudiantesAfter(estudiantes: seq<EstudianteRow>, created: CreateAnswer, r: RegisterRequest, stage: Stage)
    : seq<EstudianteRow>
    requires stage != NotCreated ==> created.Created?
  {
    if stage == Completed && r.rol == "estudiante" then estudiantes + [EstudianteRow(created.userId, r.codigo, r.idEscuela)]
    else estudiantes
  }

  function ProfesoresAfter(profesores: seq<ProfesorRow>, created: CreateAnswer, r: RegisterRequest, stage: Stage)
    : seq<ProfesorRow>
    requires stage != NotCreated ==> created.Created?
  {
    if stage == Completed && r.rol == "profesor" then
      profesores + [ProfesorRow(created.userId, r.codigoProfesor, r.especialidad, r.gradoAcademico)]
    else profesores
  }

  /** The response of a registration. */
  function RegisterResponse(created: CreateAnswer, stage: Stage, usuariosError: Option<string>, roleError: Option<string>)
    : (resp: Response)
    requires stage == NotCreated <==> created.CreateFailed?
    requires stage == ProfileFailed ==> usuariosError.Some?
    requires stage == RoleFailed ==> roleError.Some?
    ensures resp.status == 200 <==> stage == Completed
    ensures resp.status == 200 ==> resp.body == Registered("User registered successfully", created.userId)
    ensures resp.status != 200 ==> resp.status == 400
    ensures stage == NotCreated ==> resp.body == ErrorBody(created.message)
    ensures stage == ProfileFailed ==> resp.body == ErrorBody(usuariosError.value)
    ensures stage == RoleFailed ==> resp.body == ErrorBody(roleError.value)
  {
    match stage
    case NotCreated => Response(400, ErrorBody(created.message))
    case ProfileFailed => Response(400, ErrorBody(usuariosError.value))
    case RoleFailed => Response(400, ErrorBody(roleError.value))
    case Completed => Response(200, Registered("User registered successfully", created.userId))
  }

  /** A failed `createUser` inserts nothing. */
  lemma CreateFailureWritesNothing(accounts: seq<string>, usuarios: seq<UsuarioRow>,
                                   created: CreateAnswer, r: RegisterRequest)
    requires created.CreateFailed?
    ensures AccountsAfter(accounts, created, NotCreated) == accounts
    ensures UsuariosAfter(usuarios, created, r, NotCreated) == usuarios
  {
  }

  /** A registration that fails after the account was created removes that
      account again, leaving the accounts as they were. */
  lemma FailureRemovesAccount(accounts: seq<string>, created: CreateAnswer, stage: Stage)
    requires created.Created? && created.userId !in accounts
    requires stage == ProfileFailed || stage == RoleFailed
    ensures AccountsAfter(accounts, created, stage) == accounts
  {
    RemoveCreated(accounts, created.userId);
  }

  /** When the role insert fails the profile row is not deleted: it stays
      without an auth account. */
  lemma RoleFailureLeavesProfile(accounts: seq<string>, usuarios: seq<UsuarioRow>,
                                 created: CreateAnswer, r: RegisterRequest)
    requires created.Created?
    ensures UsuarioOf(created.userId, r) in UsuariosAfter(usuarios, created, r, RoleFailed)
    ensures created.userId !in AccountsAfter(accounts, created, RoleFailed)
  {
    assert UsuariosAfter(usuarios, created, r, RoleFailed)[|usuarios|] == UsuarioOf(created.userId, r);
  }

  /** A completed student registration leaves the account, its profile row and
      its student row, all under the created id. */
  lemma CompletedStudentIsConsistent(accounts: seq<string>, usuarios: seq<UsuarioRow>,
                                     estudiantes: seq<EstudianteRow>, created: CreateAnswer, r: RegisterRequest)
    requires created.Created? && r.rol == "estudiante"
    ensures created.userId in AccountsAfter(accounts, created, Completed)
    ensures UsuariosAfter(usuarios, created, r, Completed) == usuarios + [UsuarioOf(created.userId, r)]
    ensures EstudiantesAfter(estudiantes, created, r, Completed)
         == estudiantes + [EstudianteRow(created.userId, r.codigo, r.idEscuela)]
  {
    assert AccountsAfter(accounts, created, Completed)[|accounts|] == created.userId;
  }

  /** The request as the handler sees it, and what `req.json()` gave: the
      fields of the body (login reads only the e-mail and the password), or the
      message of the exception it throws. */
  datatype Request = Request(verb: string, path: string)
  datatype JsonBody = Malformed(message: string) | Json(data: RegisterRequest)

  /** The backend behind the function: auth accounts and the three tables
      register writes, and the last-connection column login writes. */
  class AuthService {
    var accounts: seq<string>
    var usuarios: seq<UsuarioRow>
    var estudiantes: seq<EstudianteRow>
    var profesores: seq<ProfesorRow>
    var lastConnection: map<string, string>

    constructor ()
      ensures accounts == [] && usuarios == [] && estudiantes == [] && profesores == []
      ensures lastConnection == map[]
    {
      accounts := [];
      usuarios := [];
      estudiantes := [];
      profesores := [];
      lastConnection := map[];
    }

    /** The login handler; `now` is the timestamp written as the last connection. */
    method Login(signIn: SignInAnswer, lookup: UserLookup, now: string) returns (resp: Response)
      modifies this
      ensures resp == LoginResponse(signIn, lookup)
      ensures accounts == old(accounts) && usuarios == old(usuarios)
      ensures estudiantes == old(estudiantes) && profesores == old(profesores)
      ensures lastConnection == if resp.status == 200 then old(lastConnection)[lookup.record.id := now]
                                else old(lastConnection)
    {
      if signIn.SignInFailed? {
        return Response(401, ErrorBody("Invalid credentials"));
      }
      if lookup.LookupFailed? {
        return Response(404, ErrorBody("User data not found"));
      }
      var user := LoginUser(lookup.record);
      lastConnection := lastConnection[lookup.record.id := now];
      resp := Response(200, LoggedIn(user, signIn.session));
    }

    /** The register handler: `created`, `usuariosError` and `roleError` are
        the answers of `createUser` and of the two inserts. */
    method Register(r: RegisterRequest, created: CreateAnswer, usuariosError: Option<string>, roleError: Option<string>)
      returns (resp: Response)
      modifies this
      ensures var stage := StageOf(created, usuariosError, roleError, r.rol);
        && resp == RegisterResponse(created, stage, usuariosError, roleError)
        && accounts == AccountsAfter(old(accounts), created, stage)
        && usuarios == UsuariosAfter(old(usuarios), created, r, stage)
        && estudiantes == EstudiantesAfter(old(estudiantes), created, r, stage)
        && profesores == ProfesoresAfter(old(profesores), created, r, stage)
      ensures lastConnection == old(lastConnection)
    {
      if created.CreateFailed? {
        return Response(400, ErrorBody(created.message));
      }
      var id := created.userId;
      accounts := accounts + [id];
      if usuariosError.Some? {
        accounts := RemoveId(accounts, id);
        return Response(400, ErrorBody(usuariosError.value));
      }
      usuarios := usuarios + [UsuarioOf(id, r)];
      if r.rol == "estudiante" {
        if roleError.Some? {
          accounts := RemoveId(accounts, id);
          return Response(400, ErrorBody(roleError.value));
        }
        estudiantes := estudiantes + [EstudianteRow(id, r.codigo, r.idEscuela)];
      } else if r.rol == "profesor" {
        if roleError.Some? {
          accounts := RemoveId(accounts, id);
          return Response(400, ErrorBody(roleError.value));
        }
        profesores := profesores + [ProfesorRow(id, r.codigoProfesor, r.especialidad, r.gradoAcademico)];
      }
      resp := Response(200, Registered("User registered successfully", id));
    }

    /** The `serve` callback: preflight, the two POST routes, and "Not found". */
    method Serve(req: Request, body: JsonBody, signIn: SignInAnswer, lookup: UserLookup, now: string,
                 created: CreateAnswer, usuariosError: Option<string>, roleError: Option<string>)
      returns (resp: Response)
      modifies this
      ensures req.verb == "OPTIONS" ==> resp == Response(200, Text("ok")) && unchanged(this)
      ensures req.verb != "OPTIONS" && !(req.verb == "POST" && (req.path == "/auth/login" || req.path == "/auth/register"))
              ==> resp == Response(404, ErrorBody("Not found")) && unchanged(this)
      ensures req.verb == "POST" && (req.path == "/auth/login" || req.path == "/auth/register") && body.Malformed?
              ==> resp == Response(500, ErrorBody(body.message)) && unchanged(this)
      ensures req.verb == "POST" && req.path == "/auth/login" && body.Json?
              ==> && resp == LoginResponse(signIn, lookup)
                  && accounts == old(accounts) && usuarios == old(usuarios)
                  && estudiantes == old(estudiantes) && profesores == old(profesores)
                  && lastConnection == if resp.status == 200 then old(lastConnection)[lookup.record.id := now]
                                       else old(lastConnection)
      ensures req.verb == "POST" && req.path == "/auth/register" && body.Json?
              ==> var stage := StageOf(created, usuariosError, roleError, body.data.rol);
                  && resp == RegisterResponse(created, stage, usuariosError, roleError)
                  && accounts == AccountsAfter(old(accounts), created, stage)
                  && usuarios == UsuariosAfter(old(usuarios), created, body.data, stage)
                  && estudiantes == EstudiantesAfter(old(estudiantes), created, body.data, stage)
                  && profesores == ProfesoresAfter(old(profesores), created, body.data, stage)
                  && lastConnection == old(lastConnection)
    {
      if req.verb == "OPTIONS" {
        return Response(200, Text("ok"));
      }
      if req.path == "/auth/login" && req.verb == "POST" {
        if body.Malformed? {
          return Response(500, ErrorBody(body.message));
        }
        resp := Login(signIn, lookup, now);
        return;
      }
      if req.path == "/auth/register" && req.verb == "POST" {
        if body.Malformed? {
          return Response(500, ErrorBody(body.message));
        }
        resp := Register(body.data, created, usuariosError, roleError);
        return;
      }
      resp := Response(404, ErrorBody("Not found"));
    }
  }
}
