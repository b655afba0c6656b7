/** The User collection: documents keyed by their allocated internal ID,
    each also carrying the database's own key, with unique e-mails, passwords
    hashed on save and on every update that supplies a non-empty one, and
    serialisation that drops the password. */
module UserModel {
  import opened Common
  import opened Counter

  /** The values the schema's `role` enum admits. */
  const Roles: set<string> := {"admin", "user", "guest"}

  /** bcrypt as the model sees it: `hash` (salt generation folded in) and
      `compare(plain, hash)`. */
  datatype Bcrypt = Bcrypt(hash: string -> string, compare: (string, string) -> bool)

  /** The database's own primary key (`_id`). */
  type ObjectId = nat

  /** A stored user document (the schema's paths). */
  datatype User = User(
    key: ObjectId,
    internalId: string,
    firstName: string,
    lastName: string,
    email: string,
    password: string,
    role: string,
    isActive: bool)

  /** The schema paths a create request carries; `None` is an absent field. */
  datatype UserData = UserData(
    internalId: Option<string>,
    firstName: Option<string>,
    lastName: Option<string>,
    email: Option<string>,
    password: Option<string>,
    role: Option<string>,
    isActive: Option<bool>)

  /** The schema paths an update body supplies, `internalId` among them;
      `None` leaves a path as it is. */
  datatype UserPatch = UserPatch(
    internalId: Option<string>,
    firstName: Option<string>,
    lastName: Option<string>,
    email: Option<string>,
    password: Option<string>,
    role: Option<string>,
    isActive: Option<bool>)

  /** A JSON value of a serialised document. */
  datatype Json = JString(s: string) | JBool(b: bool) | JKey(k: ObjectId)

  /** Mongoose's `required` validator on a string path: present and not "". */
  predicate RequiredString(v: Option<string>)
  {
    v.Some? && v.value != ""
  }

  /** `s` is the output of `hash` for some password. */
  ghost predicate IsHash(bcrypt: Bcrypt, s: string)
  {
    exists p :: bcrypt.hash(p) == s
  }

  /** Whether `{...data, internalId}` passes the schema's validators once the
      defaults are applied. */
  predicate ValidUserData(data: UserData)
  {
    && RequiredString(data.firstName)
    && RequiredString(data.lastName)
    && RequiredString(data.email)
    && RequiredString(data.password)
    && data.role.GetOr("user") in Roles
  }

  /** The document `new this({...data, internalId})` saves after validation
      and the pre-save hook: the allocated ID replaces any `internalId` in
      the data, the (new, hence modified) password is replaced by its hash,
      `role` defaults to "user" and `isActive` to true. */
  function BuildUser(bcrypt: Bcrypt, data: UserData, key: ObjectId, internalId: string): (r: Result<User, DbError>)
    ensures r.Success? <==> ValidUserData(data)
    ensures r.Failure? ==> r.error == ValidationError
    ensures r.Success? ==> r.value.internalId == internalId && r.value.key == key
    ensures r.Success? ==> r.value.password == bcrypt.hash(data.password.value) && IsHash(bcrypt, r.value.password)
    ensures r.Success? ==> r.value.role in Roles && (data.role.None? ==> r.value.role == "user")
    ensures r.Success? && data.isActive.None? ==> r.value.isActive
    ensures r.Success? ==> Some(r.value.email) == data.email && Some(r.value.firstName) == data.firstName
  {
    if ValidUserData(data) then
      Success(User(key, internalId, data.firstName.value, data.lastName.value, data.email.value,
                   bcrypt.hash(data.password.value), data.role.GetOr("user"), data.isActive.GetOr(true)))
    else
      Failure(ValidationError)
  }

  /** Every path of a user document, the password among them. */
  function Document(u: User): map<string, Json>
  {
    map["_id" := JKey(u.key), "internalId" := JString(u.internalId),
        "firstName" := JString(u.firstName), "lastName" := JString(u.lastName),
        "email" := JString(u.email), "password" := JString(u.password),
        "role" := JString(u.role), "isActive" := JBool(u.isActive)]
  }

  /** The `toJSON` / `toObject` transform: the document with `password`
      deleted and every other path kept. */
  function Serialize(u: User): (r: map<string, Json>)
    ensures "password" !in r
    ensures r.Keys == Document(u).Keys - {"password"}
    ensures forall k :: k in r ==> r[k] == Document(u)[k]
  {
    Document(u) - {"password"}
  }

  /** The password an update stores, as `updateUserInternalId` is written:
      a supplied password is hashed only when it is truthy, so a supplied
      empty string is stored as it is. */
  function StoredPasswordAsWritten(bcrypt: Bcrypt, supplied: Option<string>): Option<string>
  {
    if supplied.Some? && supplied.value != "" then Some(bcrypt.hash(supplied.value)) else supplied
  }

  /** The password an update stores when every supplied password is hashed. */
  function StoredPassword(bcrypt: Bcrypt, supplied: Option<string>): (r: Option<string>)
    ensures r.Some? <==> supplied.Some?
    ensures r.Some? ==> IsHash(bcrypt, r.value)
  {
    if supplied.Some? then Some(bcrypt.hash(supplied.value)) else None
  }

  /** What the password path can hold once updates have run: a hash, or the
      empty string an update stores unhashed. */
  ghost predicate HashOrEmpty(bcrypt: Bcrypt, s: string)
  {
    IsHash(bcrypt, s) || s == ""
  }

  /** The document `findOneAndUpdate(filter, data, {new: true})` leaves, as
      `updateUserInternalId` is written: every supplied field overwritten,
      a supplied non-empty password hashed, a supplied "" stored as it is,
      every other field kept; the database key never changes. */
  function ApplyPatch(bcrypt: Bcrypt, u: User, p: UserPatch): (r: User)
    ensures r.key == u.key && r.internalId == p.internalId.GetOr(u.internalId)
    ensures r.firstName == p.firstName.GetOr(u.firstName) && r.lastName == p.lastName.GetOr(u.lastName)
    ensures r.email == p.email.GetOr(u.email) && r.role == p.role.GetOr(u.role)
    ensures r.isActive == p.isActive.GetOr(u.isActive)
    ensures p.password.None? ==> r.password == u.password
    ensures p.password.Some? && p.password.value != "" ==> r.password == bcrypt.hash(p.password.value)
    ensures p.password == Some("") ==> r.password == ""
  {
    User(u.key, p.internalId.GetOr(u.internalId), p.firstName.GetOr(u.firstName), p.lastName.GetOr(u.lastName),
         p.email.GetOr(u.email), StoredPasswordAsWritten(bcrypt, p.password).GetOr(u.password),
         p.role.GetOr(u.role), p.isActive.GetOr(u.isActive))
  }

  /** An update as written leaves the password a hash or "", whatever it
      supplies. */
  lemma ApplyPatchKeepsHashOrEmpty(bcrypt: Bcrypt, u: User, p: UserPatch)
    requires HashOrEmpty(bcrypt, u.password)
    ensures HashOrEmpty(bcrypt, ApplyPatch(bcrypt, u, p).password)
  {
    if p.password.Some? && p.password.value != "" {
      assert bcrypt.hash(p.password.value) == ApplyPatch(bcrypt, u, p).password;
    }
  }

  /** With bcrypt, whose hashes are never empty, an update supplying
      `password: ""` leaves a stored password that is not a hash. */
  lemma EmptyPasswordStoredUnhashed(bcrypt: Bcrypt, u: User)
    requires forall p :: bcrypt.hash(p) != ""
    ensures var r := ApplyPatch(bcrypt, u, UserPatch(None, None, None, None, Some(""), None, None));
      r.password == "" && !IsHash(bcrypt, r.password)
  {
  }

  /** The update with every supplied password hashed: it differs from the
      update as written only for a supplied "", and it keeps a hashed
      password hashed, whatever it supplies. */
  function CorrectedApplyPatch(bcrypt: Bcrypt, u: User, p: UserPatch): (r: User)
    ensures p.password != Some("") ==> r == ApplyPatch(bcrypt, u, p)
    ensures r == ApplyPatch(bcrypt, u, p).(password := r.password)
    ensures p.password.Some? ==> r.password == bcrypt.hash(p.password.value)
    ensures IsHash(bcrypt, u.password) ==> IsHash(bcrypt, r.password)
  {
    u.(internalId := p.internalId.GetOr(u.internalId), firstName := p.firstName.GetOr(u.firstName), lastName := p.lastName.GetOr(u.lastName),
       email := p.email.GetOr(u.email), password := StoredPassword(bcrypt, p.password).GetOr(u.password),
       role := p.role.GetOr(u.role), isActive := p.isActive.GetOr(u.isActive))
  }

  /** The invariant of the users collection, with `nextKey` the next
      database key it hands out. */
  ghost predicate TableValid(bcrypt: Bcrypt, users: map<string, User>, nextKey: ObjectId)
  {
    && (forall id :: id in users ==> users[id].internalId == id)
    && (forall a, b :: a in users && b in users && users[a].email == users[b].email ==> a == b)
    && (forall a, b :: a in users && b in users && users[a].key == users[b].key ==> a == b)
    && (forall id :: id in users ==> users[id].key < nextKey)
    && (forall id :: id in users ==> HashOrEmpty(bcrypt, users[id].password))
  }

  /** Handing out a database key keeps the invariant. */
  lemma KeyIssuedKeepsValid(bcrypt: Bcrypt, users: map<string, User>, nextKey: ObjectId)
    requires TableValid(bcrypt, users, nextKey)
    ensures TableValid(bcrypt, users, nextKey + 1)
  {
  }

  /** Inserting a document with a fresh internal ID, the last key handed
      out, an unused e-mail and a hashed password keeps the invariant. */
  lemma InsertKeepsValid(bcrypt: Bcrypt, users: map<string, User>, u: User)
    requires TableValid(bcrypt, users, u.key)
    requires u.internalId !in users && IsHash(bcrypt, u.password)
    requires forall id :: id in users ==> users[id].email != u.email
    ensures TableValid(bcrypt, users[u.internalId := u], u.key + 1)
  {
  }

  /** Replacing the document under `id` by one with the same database key,
      an internal ID no other document holds, an e-mail no other document
      holds and a hashed or empty password keeps the invariant. */
  lemma ReplaceKeepsValid(bcrypt: Bcrypt, users: map<string, User>, nextKey: ObjectId, id: string, u: User)
    requires TableValid(bcrypt, users, nextKey)
    requires id in users && u.key == users[id].key
    requires u.internalId == id || u.internalId !in users
    requires forall other :: other in users && other != id ==> users[other].email != u.email
    requires HashOrEmpty(bcrypt, u.password)
    ensures TableValid(bcrypt, (users - {id})[u.internalId := u], nextKey)
  {
  }

  class UserTable {
    const bcrypt: Bcrypt
    var users: map<string, User>
    /** The next database key the collection hands out. */
    var nextKey: ObjectId

    /** Each document is stored under its own internal ID; e-mails and
        database keys are unique; every stored password is a hash or the
        "" an update stores unhashed. */
    ghost predicate Valid()
      reads this
    {
      TableValid(bcrypt, users, nextKey)
    }

    /** Every stored internal ID was handed out by the allocator's User counter. */
    ghost predicate IssuedBy(counter: CounterStore)
      reads this, counter
    {
      users.Keys <= counter.Issued("User")
    }

    /** Some stored user already has this e-mail. */
    predicate EmailTaken(email: string)
      reads this
    {
      exists id :: id in users && users[id].email == email
    }

    /** Some stored user other than `id` already has this e-mail. */
    predicate EmailTakenByOther(email: string, id: string)
      reads this
    {
      exists other :: other in users && other != id && users[other].email == email
    }

    constructor (bcrypt: Bcrypt)
      ensures Valid() && this.bcrypt == bcrypt && users == map[]
    {
      this.bcrypt := bcrypt;
      users := map[];
      nextKey := 0;
    }

    /** `listUsers`: every stored document. */
    function ListUsers(): (r: set<User>)
      reads this
      requires Valid()
      ensures forall id :: id in users ==> users[id] in r
      ensures forall u :: u in r ==> u.internalId in users && users[u.internalId] == u
    {
      users.Values
    }

    /** `getUserByEmail`: the document with that e-mail, or none. */
    function GetUserByEmail(email: string): (r: Option<User>)
      reads this
      requires Valid()
      ensures r.Some? ==> r.value in ListUsers() && r.value.email == email
      ensures r.None? ==> forall u :: u in ListUsers() ==> u.email != email
    {
      if EmailTaken(email) then
        var id :| id in users && users[id].email == email;
        Some(users[id])
      else
        None
    }

    /** `getUserByInternalId`: the document whose `internalId` is `id`, or none. */
    function GetUserByInternalId(id: string): (r: Option<User>)
      reads this
      requires Valid()
      ensures r.Some? ==> r.value in ListUsers() && r.value.internalId == id
      ensures r.None? ==> forall u :: u in ListUsers() ==> u.internalId != id
    {
      if id in users then Some(users[id]) else None
    }

    /** The model's `validatePassword`: false when no user has that internal
        ID, otherwise bcrypt's verdict on the stored hash. */
    function ValidatePassword(internalId: string, plain: string): (r: bool)
      reads this
      requires Valid()
      ensures r <==> exists u :: u in ListUsers() && u.internalId == internalId && bcrypt.compare(plain, u.password)
    {
      match GetUserByInternalId(internalId)
      case None => false
      case Some(u) => bcrypt.compare(plain, u.password)
    }

    /** `UserService.validatePassword`: looks the user up first, then asks
        the model; the extra lookup never changes the answer. */
    function ServiceValidatePassword(userId: string, password: string): (r: bool)
      reads this
      requires Valid()
      ensures r == ValidatePassword(userId, password)
      ensures (forall u :: u in ListUsers() ==> u.internalId != userId) ==> !r
    {
      if GetUserByInternalId(userId).None? then false else ValidatePassword(userId, password)
    }

    /** `createUser`: allocate the next User ID, then save the document. A
        failed allocation inserts nothing and leaves the counter alone; a
        document rejected by a validator or by a unique index (the e-mail,
        or an allocated ID an update has already given to another user)
        inserts nothing but leaves a gap in the User IDs. While every
        stored ID came from the allocator, the allocated ID is free. */
    method CreateUser(counter: CounterStore, available: bool, data: UserData) returns (r: Result<User, DbError>)
      requires Valid()
      modifies this, counter
      ensures Valid()
      ensures old(IssuedBy(counter)) ==> IssuedBy(counter)
      ensures !available ==> r == Failure(StorageUnavailable) && counter.counters == old(counter.counters)
      ensures available ==> counter.counters == old(counter.counters)["User" := old(counter.Seq("User")) + 1]
      ensures available ==> (r.Success? <==>
        ValidUserData(data) && !old(EmailTaken(data.email.value)) && IdFor("User", counter.Seq("User")) !in old(users))
      ensures available && ValidUserData(data) && (old(EmailTaken(data.email.value)) || IdFor("User", counter.Seq("User")) in old(users))
        ==> r == Failure(DuplicateKey)
      ensures available && old(IssuedBy(counter)) ==> IdFor("User", counter.Seq("User")) !in old(users)
      ensures available && !ValidUserData(data) ==> r == Failure(ValidationError)
      ensures r.Success? ==>
        && r.value.internalId == IdFor("User", counter.Seq("User"))
        && r.value.key == old(nextKey)
        && r.value.internalId !in old(users)
        && users == old(users)[r.value.internalId := r.value]
        && r.value == BuildUser(bcrypt, data, r.value.key, r.value.internalId).value
      ensures r.Failure? ==> users == old(users)
    {
      var id := counter.NextId("User", available);
      if id.Failure? {
        return Failure(id.error);
      }
      var key := nextKey;
      KeyIssuedKeepsValid(bcrypt, users, key);
      nextKey := nextKey + 1;
      r := BuildUser(bcrypt, data, key, id.value);
      if r.Failure? {
        return;
      }
      if id.value in users || EmailTaken(r.value.email) {
        return Failure(DuplicateKey);
      }
      InsertKeepsValid(bcrypt, users, r.value);
      users := users[id.value := r.value];
    }

    /** `updateUserInternalId`, as written: overwrite the supplied fields of
        the matching document and return it, stored under its internal ID,
        which the update may change; none when nothing matches; rejected
        by a unique index when another user already has the new internal
        ID or the new e-mail. */
    method UpdateUserInternalId(id: string, patch: UserPatch) returns (r: Result<Option<User>, DbError>)
      requires Valid()
      modifies this
      ensures Valid()
      ensures id !in old(users) ==> r == Success(None) && users == old(users)
      ensures id in old(users) && (RenameClashes(old(users), id, patch.internalId) ||
                                   (patch.email.Some? && old(EmailTakenByOther(patch.email.value, id)))) ==>
        r == Failure(DuplicateKey) && users == old(users)
      ensures id in old(users) && !RenameClashes(old(users), id, patch.internalId) &&
              !(patch.email.Some? && old(EmailTakenByOther(patch.email.value, id))) ==>
        && r == Success(Some(ApplyPatch(bcrypt, old(users)[id], patch)))
        && users == (old(users) - {id})[r.value.value.internalId := r.value.value]
      ensures patch.internalId.None? ==> users.Keys == old(users).Keys
      ensures r.Success? && r.value.Some? && patch.password.None? ==> r.value.value.password == old(users)[id].password
      ensures nextKey == old(nextKey)
    {
      if id !in users {
        return Success(None);
      }
      if RenameClashes(users, id, patch.internalId) || (patch.email.Some? && EmailTakenByOther(patch.email.value, id)) {
        return Failure(DuplicateKey);
      }
      var updated := ApplyPatch(bcrypt, users[id], patch);
      ApplyPatchKeepsHashOrEmpty(bcrypt, users[id], patch);
      ReplaceKeepsValid(bcrypt, users, nextKey, id, updated);
      users := (users - {id})[updated.internalId := updated];
      r := Success(Some(updated));
    }

    /** `deleteUser`: remove the document whose database key is `key`;
        documents are matched by `_id`, not by internal ID. */
    method DeleteUser(key: ObjectId)
      requires Valid()
      modifies this
      ensures Valid()
      ensures forall id :: id in users <==> id in old(users) && old(users)[id].key != key
      ensures forall id :: id in users ==> users[id] == old(users)[id]
      ensures |old(users).Keys - users.Keys| <= 1
    {
      var removed := set id | id in users && users[id].key == key;
      if removed != {} {
        var a :| a in removed;
        assert removed == {a};
      }
      users := map id | id in users && users[id].key != key :: users[id];
      assert old(users).Keys - users.Keys == removed;
    }
  }
}
