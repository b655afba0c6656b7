/** The register and login decisions of the authentication controller, over
    the user table, with JWT signing left uninterpreted. */
module AuthController {
  import opened Common
  import opened Counter
  import opened UserModel

  /** The payload a token is signed over: `{id, email}`. */
  datatype Claims = Claims(id: string, email: string)

  /** The response body of a handled request. */
  datatype Body =
    | Message(text: string)
    | UserAndToken(user: map<string, Json>, token: string)

  /** A request either answered with a status and a body, or handed to
      `next(err)` with the error that was thrown. */
  datatype Response =
    | Reply(status: nat, body: Body)
    | Next(err: DbError)

  /** The fields `register` reads from the request body; `None` is an
      absent field. `businessName` and `businessDescription` are not schema
      paths, so the saved document never holds them. */
  datatype RegisterBody = RegisterBody(
    firstName: Option<string>,
    lastName: Option<string>,
    email: string,
    password: Option<string>,
    businessName: Option<string>,
    businessDescription: Option<string>)

  /** The data `register` passes to `createUser`. */
  function RegisterData(body: RegisterBody): (d: UserData)
    ensures d.internalId.None? && d.role.None? && d.isActive.None?
    ensures d.email == Some(body.email) && d.password == body.password
    ensures d.firstName == body.firstName && d.lastName == body.lastName
  {
    UserData(None, body.firstName, body.lastName, Some(body.email), body.password, None, None)
  }

  /** The successful reply for user `u`: the serialised user and a token
      signed over its internal ID and e-mail. */
  function Welcome(status: nat, sign: Claims -> string, u: User): (r: Response)
    ensures r.Reply? && r.status == status
    ensures r.body.UserAndToken? && "password" !in r.body.user
    ensures r.body.token == sign(Claims(u.internalId, u.email))
  {
    Reply(status, UserAndToken(Serialize(u), sign(Claims(u.internalId, u.email))))
  }

  /** `register`: an e-mail already in use gives 400 and changes nothing;
      otherwise the user is created and the reply is 201 with the user and
      its token; any failure on the way is passed to `next`. `available`
      says whether the database can be reached. */
  method Register(table: UserTable, counter: CounterStore, available: bool, sign: Claims -> string, body: RegisterBody)
    returns (resp: Response)
    requires table.Valid()
    modifies table, counter
    ensures table.Valid()
    ensures old(table.IssuedBy(counter)) ==> table.IssuedBy(counter)
    ensures !available ==> resp == Next(StorageUnavailable)
    ensures available && old(table.EmailTaken(body.email)) ==> resp == Reply(400, Message("Email already in use"))
    ensures resp.Reply? && resp.status == 400 ==> table.users == old(table.users) && counter.counters == old(counter.counters)
    ensures available && !old(table.EmailTaken(body.email)) ==>
      && counter.counters == old(counter.counters)["User" := old(counter.Seq("User")) + 1]
      && (resp.Reply? <==> ValidUserData(RegisterData(body)) && IdFor("User", counter.Seq("User")) !in old(table.users))
    ensures available && old(table.IssuedBy(counter)) && !old(table.EmailTaken(body.email)) ==>
      (resp.Reply? <==> ValidUserData(RegisterData(body)))
    ensures resp.Reply? && resp.status == 201 ==>
      var u := BuildUser(table.bcrypt, RegisterData(body), old(table.nextKey), IdFor("User", counter.Seq("User"))).value;
      && resp == Welcome(201, sign, u)
      && u.internalId !in old(table.users)
      && table.users == old(table.users)[u.internalId := u]
    ensures resp.Next? ==> table.users == old(table.users)
    ensures resp.Reply? ==> resp.status == 400 || resp.status == 201
  {
    if !available {
      return Next(StorageUnavailable);
    }
    var existing := table.GetUserByEmail(body.email);
    if existing.Some? {
      return Reply(400, Message("Email already in use"));
    }
    var created := table.CreateUser(counter, available, RegisterData(body));
    if created.Failure? {
      return Next(created.error);
    }
    resp := Welcome(201, sign, created.value);
  }

  /** `login`: an unknown e-mail and a wrong password give the same 401;
      otherwise the reply carries the user with that e-mail and a token
      signed over its internal ID. The table is only read. */
  function Login(table: UserTable, available: bool, sign: Claims -> string, email: string, password: string): (resp: Response)
    reads table
    requires table.Valid()
    ensures !available ==> resp == Next(StorageUnavailable)
    ensures available ==> resp.Reply?
    ensures resp.Reply? && resp.status != 200 ==> resp == Reply(401, Message("Invalid credentials"))
    ensures resp.Reply? && resp.status == 200 ==>
      exists u :: u in table.ListUsers() && u.email == email && table.bcrypt.compare(password, u.password)
        && resp == Welcome(200, sign, u)
    ensures available && (exists u :: u in table.ListUsers() && u.email == email && table.bcrypt.compare(password, u.password)) ==>
      resp.status == 200
  {
    if !available then Next(StorageUnavailable)
    else
      match table.GetUserByEmail(email)
      case None => Reply(401, Message("Invalid credentials"))
      case Some(user) =>
        if !table.ServiceValidatePassword(user.internalId, password) then Reply(401, Message("Invalid credentials"))
        else Welcome(200, sign, user)
  }

  /** A successful login's token names the internal ID of the user whose
      e-mail was given, and that user is unique. */
  lemma LoginTokenNamesTheUser(table: UserTable, sign: Claims -> string, email: string, password: string, u: User)
    requires table.Valid()
    requires u in table.ListUsers() && u.email == email
    requires Login(table, true, sign, email, password).status == 200
    ensures Login(table, true, sign, email, password).body.token == sign(Claims(u.internalId, email))
    ensures table.bcrypt.compare(password, u.password)
  {
    var w :| w in table.ListUsers() && w.email == email && table.bcrypt.compare(password, w.password)
      && Login(table, true, sign, email, password) == Welcome(200, sign, w);
    assert w.internalId in table.users && u.internalId in table.users;
  }

  /** Registering the e-mail of a user who can log in is refused. */
  lemma RegisteredEmailCannotRegisterAgain(table: UserTable, sign: Claims -> string, email: string, password: string)
    requires table.Valid()
    requires Login(table, true, sign, email, password).status == 200
    ensures table.EmailTaken(email)
  {
    var w :| w in table.ListUsers() && w.email == email && table.bcrypt.compare(password, w.password)
      && Login(table, true, sign, email, password) == Welcome(200, sign, w);
    assert table.users[w.internalId].email == email;
  }

  /** A user whose stored password is the "" an update leaves unhashed can
      no longer log in, given a bcrypt whose compare rejects "" as a hash:
      the password check fails and every login with that e-mail answers
      401. */
  lemma EmptyStoredPasswordBlocksLogin(table: UserTable, sign: Claims -> string, id: string, password: string)
    requires table.Valid()
    requires forall p :: !table.bcrypt.compare(p, "")
    requires id in table.users && table.users[id].password == ""
    ensures !table.ValidatePassword(id, password)
    ensures Login(table, true, sign, table.users[id].email, password) == Reply(401, Message("Invalid credentials"))
  {
  }
}
