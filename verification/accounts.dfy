/** The account store behind `/register` and `/login` (server/index.js) and
    `action=register` / `action=login` (server/api/auth.js): registration hashes
    the password and inserts a `users` row under the UNIQUE email constraint;
    login looks the email up and checks the password against the stored digest. */
module Accounts {
  import opened Common
  import opened Bcrypt
  import opened Tables

  /** The body `{name, email, password}` of a registration. */
  datatype RegisterRequest = RegisterRequest(name: Option<string>, email: Option<string>, password: Option<string>)

  /** The body `{email, password}` of a login. */
  datatype LoginRequest = LoginRequest(email: Option<string>, password: Option<string>)

  datatype RegisterOutcome = MissingFields | EmailInUse | RegisterFailed | Registered(userId: int)

  datatype LoginOutcome =
    | MissingCredentials
    | LookupFailed
    | InvalidCredentials
    | Authenticated(userId: int, isAdmin: bool)

  /** `!name || !email || !password` is false. */
  predicate RegisterFieldsPresent(req: RegisterRequest)
  {
    TruthyText(req.name) && TruthyText(req.email) && TruthyText(req.password)
  }

  /** Registration: the required-field check, `bcrypt.hash(password, 10)` with the drawn
      `salt`, and the insert; a UNIQUE error means the email is in use, any other insert
      error (`insertFails`) is a storage failure. */
  method Register(db: Database, req: RegisterRequest, salt: nat, insertFails: bool) returns (outcome: RegisterOutcome)
    requires db.Valid()
    modifies db
    ensures db.Valid()
    ensures db.products == old(db.products) && db.orders == old(db.orders) && db.orderItems == old(db.orderItems)
    ensures !RegisterFieldsPresent(req) ==> outcome == MissingFields && unchanged(db)
    ensures RegisterFieldsPresent(req) && insertFails ==> outcome == RegisterFailed && unchanged(db)
    ensures RegisterFieldsPresent(req) && !insertFails && EmailTaken(old(db.users), req.email.value) ==>
              outcome == EmailInUse && unchanged(db)
    ensures RegisterFieldsPresent(req) && !insertFails && !EmailTaken(old(db.users), req.email.value) ==>
              && outcome == Registered(old(db.nextUserId))
              && (forall u :: u in old(db.users) ==> u.id != outcome.userId)
              && db.users == old(db.users) + [UserRow(outcome.userId, req.name.value, req.email.value,
                                                      Hash(req.password.value, salt), 0)]
    ensures outcome.Registered? ==>
              Login(db.users, LoginRequest(req.email, req.password), false) == Authenticated(outcome.userId, false)
  {
    if !RegisterFieldsPresent(req) {
      return MissingFields;
    }
    var hashed := Hash(req.password.value, salt);
    var inserted := db.InsertUser(req.name.value, req.email.value, hashed, insertFails);
    match inserted
    case UniqueViolation =>
      outcome := EmailInUse;
    case StorageError =>
      outcome := RegisterFailed;
    case Inserted(id) =>
      outcome := Registered(id);
      assert forall u :: u in old(db.users) ==> u.id != id by {
        forall u | u in old(db.users) ensures u.id != id {
          var k :| 0 <= k < |old(db.users)| && old(db.users)[k] == u;
          assert UserIds(old(db.users))[k] == u.id;
        }
      }
      LoginAfterRegistration(old(db.users), db.users[|db.users| - 1], req.password.value, salt);
  }

  /** Login: the required-field check, `SELECT * FROM users WHERE email = ?` (which may
      error: `queryFails`), then `bcrypt.compare` against the stored digest. */
  function Login(users: seq<UserRow>, req: LoginRequest, queryFails: bool): (r: LoginOutcome)
    ensures r == MissingCredentials <==> !TruthyText(req.email) || !TruthyText(req.password)
    ensures r == LookupFailed <==> TruthyText(req.email) && TruthyText(req.password) && queryFails
    ensures r.Authenticated? ==>
              exists u :: u in users && u.id == r.userId && u.email == req.email.value &&
                          Verify(req.password.value, u.password) && r.isAdmin == (u.isAdmin != 0)
  {
    if !TruthyText(req.email) || !TruthyText(req.password) then MissingCredentials
    else if queryFails then LookupFailed
    else match FindUserByEmail(users, req.email.value)
      case None => InvalidCredentials
      case Some(u) =>
        if Verify(req.password.value, u.password) then Authenticated(u.id, u.isAdmin != 0)
        else InvalidCredentials
  }

  /** Under the UNIQUE email constraint, login succeeds exactly when some account holds
      the email and its digest accepts the password; every other lookup that runs ends
      in the one "invalid credentials" outcome. */
  lemma LoginSucceedsIffCredentialsMatch(users: seq<UserRow>, email: string, password: string)
    requires EmailsUnique(users) && email != "" && password != ""
    ensures Login(users, LoginRequest(Some(email), Some(password)), false).Authenticated? <==>
              exists u :: u in users && u.email == email && Verify(password, u.password)
    ensures !Login(users, LoginRequest(Some(email), Some(password)), false).Authenticated? ==>
              Login(users, LoginRequest(Some(email), Some(password)), false) == InvalidCredentials
  {
    if exists u :: u in users && u.email == email && Verify(password, u.password) {
      var u :| u in users && u.email == email && Verify(password, u.password);
      var k :| 0 <= k < |users| && users[k] == u;
      FindUserUnique(users, k);
    }
  }

  /** An unknown email and a known email with a wrong password give the same outcome. */
  lemma UnknownEmailAndWrongPasswordAgree(unknown: seq<UserRow>, known: seq<UserRow>, email: string, password: string)
    requires email != "" && password != ""
    requires !EmailTaken(unknown, email)
    requires EmailsUnique(known)
    requires exists u :: u in known && u.email == email && !Verify(password, u.password)
    ensures Login(unknown, LoginRequest(Some(email), Some(password)), false) == InvalidCredentials
    ensures Login(known, LoginRequest(Some(email), Some(password)), false) == InvalidCredentials
  {
    var u :| u in known && u.email == email && !Verify(password, u.password);
    var k :| 0 <= k < |known| && known[k] == u;
    FindUserUnique(known, k);
  }

  /** After a row is appended under the UNIQUE constraint with the digest of `password`,
      logging in with its email and that password yields its id and admin flag. */
  lemma LoginAfterRegistration(users: seq<UserRow>, row: UserRow, password: string, salt: nat)
    requires EmailsUnique(users) && !EmailTaken(users, row.email)
    requires row.email != "" && password != "" && row.password == Hash(password, salt)
    ensures EmailsUnique(users + [row])
    ensures Login(users + [row], LoginRequest(Some(row.email), Some(password)), false) == Authenticated(row.id, row.isAdmin != 0)
  {
    var all := users + [row];
    forall i, j | 0 <= i < j < |all| ensures all[i].email != all[j].email {
      if j == |users| {
        assert all[i] == users[i];
      }
    }
    FindUserUnique(all, |users|);
  }
}
