/** `POST /api/auth/register`: validates the sign-up form, refuses an email
    that is already registered, and inserts the user with a hashed password. */
module RegisterRoute {
  import opened Wrappers
  import opened Schema
  import opened Database
  import opened Json

  /** `z.string().email()`: the email check of the validation library. */
  type EmailCheck = string -> bool
  /** `bcrypt.hash(password, 10)`. */
  type Hasher = string -> string

  datatype Response =
    | Invalid                 // 400, the schema's issues
    | EmailTaken              // 400 "Email already registered"
    | Registered(id: Id, email: string, name: Option<string>)
    | InternalError           // 500

  datatype Registration = Registration(email: string, password: string, name: string)

  const MinPasswordLength: nat := 6
  const MinNameLength: nat := 1

  /** `registerSchema.parse(body)`. */
  function ParseRegistration(v: Json, isEmail: EmailCheck): (r: Option<Registration>)
    ensures r.Some? <==>
      && StringField(v, "email").Some? && isEmail(StringField(v, "email").value)
      && StringField(v, "password").Some? && |StringField(v, "password").value| >= 6
      && StringField(v, "name").Some? && |StringField(v, "name").value| >= 1
    ensures r.Some? ==>
      r.value == Registration(StringField(v, "email").value, StringField(v, "password").value, StringField(v, "name").value)
  {
    var email, password, name := StringField(v, "email"), StringField(v, "password"), StringField(v, "name");
    if email.Some? && isEmail(email.value)
       && password.Some? && |password.value| >= MinPasswordLength
       && name.Some? && |name.value| >= MinNameLength
    then Some(Registration(email.value, password.value, name.value))
    else None
  }

  /** The reply, the new tables and the next free id, given the id the
      insert would use. */
  function Register(t: Tables, nextId: Id, body: Body, isEmail: EmailCheck, hash: Hasher, now: Time)
    : (r: (Response, Tables, Id))
    ensures !r.0.Registered? ==> r.1 == t && r.2 == nextId
    ensures r.0.Registered? ==>
      && r.0.id == nextId && r.2 == nextId + 1
      && |r.1.users| == |t.users| + 1 && r.1.users[..|t.users|] == t.users
      && r.1.users[|t.users|].id == nextId && r.1.users[|t.users|].email == r.0.email
    ensures r.1.campaigns == t.campaigns && r.1.posts == t.posts && r.1.comments == t.comments
  {
    match body
    case Malformed => (InternalError, t, nextId)
    case Parsed(v) =>
      match ParseRegistration(v, isEmail)
      case None => (Invalid, t, nextId)
      case Some(reg) =>
        if UserByEmail(t.users, reg.email).Some? then (EmailTaken, t, nextId)
        else
          var u := User(nextId, reg.email, hash(reg.password), Some(reg.name), None, now, now);
          (Registered(u.id, u.email, u.name), t.(users := t.users + [u]), nextId + 1)
  }

  /** The handler. */
  method RegisterUser(store: Store, body: Body, isEmail: EmailCheck, hash: Hasher, now: Time) returns (r: Response)
    requires store.Valid()
    modifies store
    ensures store.Valid()
    ensures (r, store.tables, store.nextId) == Register(old(store.tables), old(store.nextId), body, isEmail, hash, now)
  {
    if body.Malformed? {
      return InternalError;
    }
    var parsed := ParseRegistration(body.value, isEmail);
    if parsed.None? {
      return Invalid;
    }
    var reg := parsed.value;
    var existing := UserByEmail(store.tables.users, reg.email);
    if existing.Some? {
      return EmailTaken;
    }
    var hashed := hash(reg.password);
    var id := store.NewId();
    var user := User(id, reg.email, hashed, Some(reg.name), None, now, now);
    store.InsertUser(user);
    r := Registered(user.id, user.email, user.name);
  }

  /** A registration succeeds exactly when the body is JSON, passes the
      schema, and its email is not yet registered; every refusal changes
      nothing. */
  lemma RegisteredIff(t: Tables, nextId: Id, body: Body, isEmail: EmailCheck, hash: Hasher, now: Time)
    ensures var (r, t', n) := Register(t, nextId, body, isEmail, hash, now);
      && (r.Registered? <==>
            body.Parsed? && ParseRegistration(body.value, isEmail).Some?
            && forall u :: u in t.users ==> u.email != ParseRegistration(body.value, isEmail).value.email)
      && (r == EmailTaken <==>
            body.Parsed? && ParseRegistration(body.value, isEmail).Some?
            && exists u :: u in t.users && u.email == ParseRegistration(body.value, isEmail).value.email)
      && (!r.Registered? ==> t' == t && n == nextId)
  {
  }

  /** A success appends exactly one user: the fresh id, the submitted email
      and name, the hash of the password in place of the password, and no
      extension token; the reply echoes id, email and name. */
  lemma RegisteredInsertsOne(t: Tables, nextId: Id, body: Body, isEmail: EmailCheck, hash: Hasher, now: Time)
    requires Register(t, nextId, body, isEmail, hash, now).0.Registered?
    ensures var (r, t', n) := Register(t, nextId, body, isEmail, hash, now);
      var reg := ParseRegistration(body.value, isEmail).value;
      && |t'.users| == |t.users| + 1 && t'.users[..|t.users|] == t.users
      && t'.campaigns == t.campaigns && t'.posts == t.posts && t'.comments == t.comments
      && t'.users[|t.users|] == User(nextId, reg.email, hash(reg.password), Some(reg.name), None, now, now)
      && r == Registered(nextId, reg.email, Some(reg.name)) && n == nextId + 1
  {
  }

  /** After a success the email names exactly the new user, so emails stay
      unique. */
  lemma RegisteredEmailUnique(t: Tables, nextId: Id, body: Body, isEmail: EmailCheck, hash: Hasher, now: Time)
    requires Register(t, nextId, body, isEmail, hash, now).0.Registered?
    ensures var (r, t', n) := Register(t, nextId, body, isEmail, hash, now);
      forall u :: u in t'.users && u.email == r.email ==> u.id == nextId
  {
    var (r, t', n) := Register(t, nextId, body, isEmail, hash, now);
    forall u | u in t'.users && u.email == r.email ensures u.id == nextId {
      var i :| 0 <= i < |t'.users| && t'.users[i] == u;
      if i < |t.users| {
        assert false;
      }
    }
  }

  /** Registering the same email twice: the second attempt is refused. */
  lemma SecondRegistrationRefused(t: Tables, nextId: Id, body: Body, body2: Body, isEmail: EmailCheck, hash: Hasher, now: Time, later: Time)
    requires Register(t, nextId, body, isEmail, hash, now).0.Registered?
    requires body2.Parsed? && ParseRegistration(body2.value, isEmail).Some?
    requires ParseRegistration(body2.value, isEmail).value.email == ParseRegistration(body.value, isEmail).value.email
    ensures var (_, t', n) := Register(t, nextId, body, isEmail, hash, now);
      Register(t', n, body2, isEmail, hash, later).0 == EmailTaken
  {
    var (_, t', n) := Register(t, nextId, body, isEmail, hash, now);
    assert t'.users[|t.users|] in t'.users;
  }
}
