/** `/api/extension/auth`: `POST` issues a fresh extension token to the
    signed-in user, replacing any earlier one; `GET` tells the extension
    which user a token belongs to. */
module ExtensionAuthRoute {
  import opened Wrappers
  import opened Schema
  import opened Database

  datatype IssueResponse =
    | Unauthorized       // 401, no session or the update threw
    | Issued(token: string)

  /** The columns `GET` selects: never the password or the token. */
  datatype UserView = UserView(id: Id, email: string, name: Option<string>)

  datatype LookupResponse =
    | NoToken            // 401 "No token"
    | InvalidToken       // 401 "Invalid token"
    | Found(user: UserView)

  function View(u: User): (v: UserView)
    ensures v.id == u.id && v.email == u.email && v.name == u.name
  {
    UserView(u.id, u.email, u.name)
  }

  /** Another row than the user's already holds `token`: the UNIQUE index on
      `extension_token` makes the update throw. */
  predicate TokenTaken(users: seq<User>, userId: Id, token: string)
  {
    exists u :: u in users && u.id != userId && u.extensionToken == Some(token)
  }

  /** `POST` for the signed-in user `session` (None when there is no
      session), with `token` the fresh random token, at `now`. */
  function Issue(t: Tables, session: Option<Id>, token: string, now: Time): (r: (IssueResponse, Tables))
    ensures r.0.Unauthorized? ==> r.1 == t
    ensures r.0.Issued? ==> session.Some? && r.0.token == token
    ensures r.1.campaigns == t.campaigns && r.1.posts == t.posts && r.1.comments == t.comments
    ensures |r.1.users| == |t.users|
  {
    if session.None? then (Unauthorized, t)
    else if TokenTaken(t.users, session.value, token) then (Unauthorized, t)
    else
      match UserIndex(t.users, session.value)
      case None => (Issued(token), t)
      case Some(k) => (Issued(token), t.(users := t.users[k := t.users[k].(extensionToken := Some(token), updatedAt := now)]))
  }

  /** `GET` with header `x-extension-token` = `token`. */
  function Lookup(users: seq<User>, token: Option<string>): (r: LookupResponse)
    ensures token.None? || token == Some("") ==> r == NoToken
    ensures r == InvalidToken <==>
      token.Some? && token.value != "" && forall u :: u in users ==> u.extensionToken != token
    ensures r.Found? ==> exists u :: u in users && u.extensionToken == token && r.user == View(u)
  {
    if token.None? || token.value == "" then NoToken
    else
      match UserByToken(users, token.value)
      case None => InvalidToken
      case Some(u) => Found(View(u))
  }

  /** `POST`: the route's handler, updating the users table in place. */
  method IssueToken(store: Store, session: Option<Id>, token: string, now: Time) returns (r: IssueResponse)
    requires store.Valid()
    modifies store
    ensures store.Valid() && store.nextId == old(store.nextId)
    ensures (r, store.tables) == Issue(old(store.tables), session, token, now)
  {
    if session.None? {
      return Unauthorized;
    }
    var userId := session.value;
    if exists u :: u in store.tables.users && u.id != userId && u.extensionToken == Some(token) {
      return Unauthorized;
    }
    var index := UserIndex(store.tables.users, userId);
    if index.Some? {
      var k := index.value;
      forall j | 0 <= j < |store.tables.users| && j != k
        ensures store.tables.users[j].extensionToken != Some(token)
      {
        assert store.tables.users[j] in store.tables.users;
      }
      store.UpdateUser(k, store.tables.users[k].(extensionToken := Some(token), updatedAt := now));
    }
    r := Issued(token);
  }

  /** Issuing never breaks the table's constraints, and touches at most the
      signed-in user's row. */
  lemma IssueOnlyTouchesUser(t: Tables, session: Option<Id>, token: string, now: Time)
    requires WellFormed(t)
    ensures var (r, t') := Issue(t, session, token, now);
      && t'.campaigns == t.campaigns && t'.posts == t.posts && t'.comments == t.comments
      && |t'.users| == |t.users|
      && (forall i :: 0 <= i < |t.users| && (session.None? || t.users[i].id != session.value) ==> t'.users[i] == t.users[i])
      && (r == Unauthorized <==> session.None? || TokenTaken(t.users, session.value, token))
      && (r == Unauthorized ==> t' == t)
  {
  }

  /** After a successful `POST` the new token finds the user... */
  lemma IssuedTokenFindsUser(t: Tables, userId: Id, token: string, now: Time)
    requires WellFormed(t) && userId in UserIds(t.users) && token != ""
    requires Issue(t, Some(userId), token, now).0 == Issued(token)
    ensures var t' := Issue(t, Some(userId), token, now).1;
      Lookup(t'.users, Some(token)).Found? && Lookup(t'.users, Some(token)).user.id == userId
  {
    var t' := Issue(t, Some(userId), token, now).1;
    var k := UserIndex(t.users, userId).value;
    var u' := t'.users[k];
    assert u' in t'.users && u'.extensionToken == Some(token);
    var found := UserByToken(t'.users, token).value;
    var i :| 0 <= i < |t'.users| && t'.users[i] == found;
    assert t.users[i] in t.users;
  }

  /** ...and the token the user held before no longer finds anyone, as the
      settings page tells the user. */
  lemma PreviousTokenRevoked(t: Tables, userId: Id, token: string, previous: string, now: Time)
    requires WellFormed(t) && previous != token && previous != ""
    requires exists u :: u in t.users && u.id == userId && u.extensionToken == Some(previous)
    requires Issue(t, Some(userId), token, now).0 == Issued(token)
    ensures Lookup(Issue(t, Some(userId), token, now).1.users, Some(previous)) == InvalidToken
  {
    var t' := Issue(t, Some(userId), token, now).1;
    var k := UserIndex(t.users, userId).value;
    var u :| u in t.users && u.id == userId && u.extensionToken == Some(previous);
    forall v | v in t'.users ensures v.extensionToken != Some(previous) {
      var i :| 0 <= i < |t'.users| && t'.users[i] == v;
      if i != k && t.users[i].extensionToken == Some(previous) {
        UniqueKeyedRow(t.users, TokenKey, u, i);
        UniqueKeyedRow(t.users, UserIdKey, u, k);
        assert false;
      }
    }
  }
}
