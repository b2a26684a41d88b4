/** The serverless handler of server/api/auth.js: CORS first, then POST with
    `?action=register` or `?action=login`; any other action is refused with 400
    and any other method with 405. */
module AuthApi {
  import opened Common
  import opened Bcrypt
  import opened Tables
  import opened Accounts
  import opened Http
  import opened Middleware

  /** The JSON body; each action reads the fields it needs. */
  datatype AuthBody = AuthBody(name: Option<string>, email: Option<string>, password: Option<string>)

  /** The status and body sent for each outcome of registration. */
  function RegisterReply(outcome: RegisterOutcome): (r: Reply)
    ensures r.status == 200 <==> outcome.Registered?
    ensures outcome.Registered? ==> r.payload == UserRegisteredBody(outcome.userId)
    ensures outcome == MissingFields ==> r == Reply(400, ErrorBody("All fields are required"))
    ensures outcome == EmailInUse ==> r == Reply(400, ErrorBody("Email already in use"))
    ensures outcome == RegisterFailed ==> r == Reply(500, StorageErrorBody)
  {
    match outcome
    case MissingFields => Reply(400, ErrorBody("All fields are required"))
    case EmailInUse => Reply(400, ErrorBody("Email already in use"))
    case RegisterFailed => Reply(500, StorageErrorBody)
    case Registered(id) => Reply(200, UserRegisteredBody(id))
  }

  /** The status and body sent for each outcome of login; the body of a success carries
      `is_admin` only when `withAdminFlag` (server/api/auth.js does, server/index.js does not). */
  function LoginReply(outcome: LoginOutcome, withAdminFlag: bool): (r: Reply)
    ensures r.status == 200 <==> outcome.Authenticated?
    ensures outcome.Authenticated? ==>
              r.payload == LoginBody(outcome.userId, if withAdminFlag then Some(outcome.isAdmin) else None)
    ensures outcome == MissingCredentials ==> r == Reply(400, ErrorBody("Email and password required"))
    ensures outcome == LookupFailed ==> r == Reply(500, StorageErrorBody)
    ensures outcome == InvalidCredentials ==> r == Reply(401, ErrorBody("Invalid credentials"))
  {
    match outcome
    case MissingCredentials => Reply(400, ErrorBody("Email and password required"))
    case LookupFailed => Reply(500, StorageErrorBody)
    case InvalidCredentials => Reply(401, ErrorBody("Invalid credentials"))
    case Authenticated(id, admin) => Reply(200, LoginBody(id, if withAdminFlag then Some(admin) else None))
  }

  /** A client cannot tell an unknown email from a wrong password: both replies are the
      same 401 "Invalid credentials", with or without the admin flag in successes. */
  lemma LoginFailuresIndistinguishable(unknown: seq<UserRow>, known: seq<UserRow>, email: string,
                                       password: string, withAdminFlag: bool)
    requires email != "" && password != ""
    requires !EmailTaken(unknown, email)
    requires EmailsUnique(known)
    requires exists u :: u in known && u.email == email && !Verify(password, u.password)
    ensures LoginReply(Login(unknown, LoginRequest(Some(email), Some(password)), false), withAdminFlag)
         == LoginReply(Login(known, LoginRequest(Some(email), Some(password)), false), withAdminFlag)
         == Reply(401, ErrorBody("Invalid credentials"))
  {
    UnknownEmailAndWrongPasswordAgree(unknown, known, email, password);
  }

  method Handle(db: Database, req: Request<AuthBody>, salt: nat, storageFails: bool, res: Response)
    requires db.Valid()
    modifies db, res
    ensures db.Valid()
    ensures res.headers == old(res.headers) + CorsHeaders(req.origin)
    ensures req.verb == Options ==>
              unchanged(db) && res.statusCode == 204 && res.ended && res.body == old(res.body)
    ensures req.verb != Options && req.verb != Post ==>
              unchanged(db) && res.statusCode == 405 && res.body == Some(ErrorBody("Method not allowed"))
    ensures req.verb == Post && req.action != Some("register") && req.action != Some("login") ==>
              unchanged(db) && res.statusCode == 400 && res.body == Some(ErrorBody("Invalid action"))
    ensures req.verb == Post && req.action == Some("login") ==>
              var r := LoginReply(Login(db.users, LoginRequest(req.body.email, req.body.password), storageFails), true);
              unchanged(db) && res.statusCode == r.status && res.body == Some(r.payload)
    ensures req.verb == Post && req.action == Some("register") ==>
              var reg := RegisterRequest(req.body.name, req.body.email, req.body.password);
              && db.products == old(db.products) && db.orders == old(db.orders) && db.orderItems == old(db.orderItems)
              && (!RegisterFieldsPresent(reg) ==>
                    unchanged(db) && res.statusCode == 400 && res.body == Some(ErrorBody("All fields are required")))
              && (RegisterFieldsPresent(reg) && storageFails ==>
                    unchanged(db) && res.statusCode == 500 && res.body == Some(StorageErrorBody))
              && (RegisterFieldsPresent(reg) && !storageFails && EmailTaken(old(db.users), reg.email.value) ==>
                    unchanged(db) && res.statusCode == 400 && res.body == Some(ErrorBody("Email already in use")))
              && (RegisterFieldsPresent(reg) && !storageFails && !EmailTaken(old(db.users), reg.email.value) ==>
                    && res.statusCode == 200 && res.body == Some(UserRegisteredBody(old(db.nextUserId)))
                    && db.users == old(db.users) + [UserRow(old(db.nextUserId), reg.name.value, reg.email.value,
                                                            Hash(reg.password.value, salt), 0)])
  {
    var handled := CorsMiddleware(req, res);
    if handled {
      return;
    }
    if req.verb == Post {
      if req.action == Some("register") {
        var outcome := Register(db, RegisterRequest(req.body.name, req.body.email, req.body.password), salt, storageFails);
        res.Send(RegisterReply(outcome));
      } else if req.action == Some("login") {
        var outcome := Login(db.users, LoginRequest(req.body.email, req.body.password), storageFails);
        res.Send(LoginReply(outcome, true));
      } else {
        res.Send(Reply(400, ErrorBody("Invalid action")));
      }
    } else {
      res.Send(MethodNotAllowed);
    }
  }
}
