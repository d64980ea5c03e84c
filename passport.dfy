/** `config/passport.js`: the Google strategy's verify callback, which finds, links or
    creates the user of a Google profile, and the session (de)serialisers. The user table
    is `Db.users`, keyed by internal id, with `googleId` and `email` unique as in the
    Prisma schema. */
module Passport {
  import opened Base
  import opened Store

  /** The parts of a Google profile the callback reads. `emails` and `photos` are `None`
      when the profile has no such array; a photo entry is `None` when it has no `value`. */
  datatype Profile = Profile(id: string, emails: Option<seq<string>>, displayName: Js<string>,
                             photos: Option<seq<Option<string>>>)

  /** Internal ids match their keys and lie below the counter; no two users share a
      Google id or an email. */
  ghost predicate UsersValid(users: map<nat, User>, nextId: nat) {
    && (forall k :: k in users ==> users[k].id == k && k < nextId)
    && (forall k1, k2 :: k1 in users && k2 in users && k1 != k2 && users[k1].googleId.Some? ==>
          users[k1].googleId != users[k2].googleId)
    && (forall k1, k2 :: k1 in users && k2 in users && k1 != k2 ==> users[k1].email != users[k2].email)
  }

  /** `prisma.user.findUnique({ where: { googleId } })` */
  ghost function ByGoogleId(users: map<nat, User>, googleId: string): (r: Option<nat>)
    ensures r.Some? ==> r.value in users && users[r.value].googleId == Some(googleId)
    ensures r.None? ==> forall k :: k in users ==> users[k].googleId != Some(googleId)
  {
    if exists k :: k in users && users[k].googleId == Some(googleId) then
      var k :| k in users && users[k].googleId == Some(googleId);
      Some(k)
    else None
  }

  /** `prisma.user.findUnique({ where: { email } })` */
  ghost function ByEmail(users: map<nat, User>, email: string): (r: Option<nat>)
    ensures r.Some? ==> r.value in users && users[r.value].email == email
    ensures r.None? ==> forall k :: k in users ==> users[k].email != email
  {
    if exists k :: k in users && users[k].email == email then
      var k :| k in users && users[k].email == email;
      Some(k)
    else None
  }

  /** `profile.photos[0]?.value` */
  function Avatar(photos: seq<Option<string>>): (a: Js<string>)
    ensures a.Val? <==> |photos| > 0 && photos[0].Some?
  {
    if |photos| > 0 && photos[0].Some? then Val(photos[0].value) else Undefined
  }

  const NoEmails := "Cannot read properties of undefined (reading '0')"
  const NoFirstEmail := "Cannot read properties of undefined (reading 'value')"
  const NoPhotos := "Cannot read properties of undefined (reading '0')"

  /** The outcome of one login: what `done` receives and the user table and counter after. */
  datatype Login = Login(result: Result<User>, users: map<nat, User>, nextId: nat)

  /** The verify callback as a function of the user table before it. */
  ghost function GoogleLogin(users: map<nat, User>, nextId: nat, p: Profile): (l: Login)
    ensures l.result.Ok? ==> l.result.value.googleId == Some(p.id) && l.result.value in l.users.Values
    ensures l.result.Err? || ByGoogleId(users, p.id).Some? ==> l.users == users && l.nextId == nextId
    ensures l.users == users || (l.result.Ok? && exists k: nat :: k in l.users && l.users == users[k := l.result.value])
    ensures l.nextId == nextId || (l.nextId == nextId + 1 && l.users == users[nextId := l.result.value])
    ensures forall k :: k in users && k != nextId ==>
              k in l.users && l.users[k].id == users[k].id && l.users[k].email == users[k].email
  {
    match ByGoogleId(users, p.id)
    case Some(k) => Login(Ok(users[k]), users, nextId)
    case None =>
      if p.emails.None? then Login(Err(NoEmails), users, nextId)
      else if |p.emails.value| == 0 then Login(Err(NoFirstEmail), users, nextId)
      else if p.photos.None? then Login(Err(NoPhotos), users, nextId)
      else
        var email := p.emails.value[0];
        var avatar := Avatar(p.photos.value);
        match ByEmail(users, email)
        case Some(k) =>
          var u := users[k].(googleId := Some(p.id), name := Apply(UpdateOf(p.displayName), users[k].name),
                             avatar := Apply(UpdateOf(avatar), users[k].avatar));
          assert users[k := u][k] == u;
          Login(Ok(u), users[k := u], nextId)
        case None =>
          var u := User(nextId, Some(p.id), email, CreateOf(p.displayName), CreateOf(avatar), "user");
          assert users[nextId := u][nextId] == u;
          Login(Ok(u), users[nextId := u], nextId + 1)
  }

  /** The verify callback against the database. */
  method GoogleVerify(db: Db, p: Profile) returns (r: Result<User>)
    requires UsersValid(db.users, db.nextId)
    modifies db`users, db`nextId
    ensures var l := GoogleLogin(old(db.users), old(db.nextId), p);
            r == l.result && db.users == l.users && db.nextId == l.nextId
  {
    var byGoogle := FindByGoogleId(db, p.id);
    if byGoogle.Some? {
      return Ok(db.users[byGoogle.value]);
    }
    if p.emails.None? {
      return Err(NoEmails);
    }
    if |p.emails.value| == 0 {
      return Err(NoFirstEmail);
    }
    var email := p.emails.value[0];
    var byEmail := FindByEmail(db, email);
    if p.photos.None? {
      return Err(NoPhotos);
    }
    var avatar := Avatar(p.photos.value);
    if byEmail.Some? {
      var k := byEmail.value;
      var u := db.users[k].(googleId := Some(p.id), name := Apply(UpdateOf(p.displayName), db.users[k].name),
                            avatar := Apply(UpdateOf(avatar), db.users[k].avatar));
      db.users := db.users[k := u];
      return Ok(u);
    }
    var u := User(db.nextId, Some(p.id), email, CreateOf(p.displayName), CreateOf(avatar), "user");
    db.users := db.users[db.nextId := u];
    db.nextId := db.nextId + 1;
    return Ok(u);
  }

  method FindByGoogleId(db: Db, googleId: string) returns (r: Option<nat>)
    requires UsersValid(db.users, db.nextId)
    ensures r == ByGoogleId(db.users, googleId)
  {
    if exists k :: k in db.users && db.users[k].googleId == Some(googleId) {
      var k :| k in db.users && db.users[k].googleId == Some(googleId);
      r := Some(k);
    } else {
      r := None;
    }
  }

  method FindByEmail(db: Db, email: string) returns (r: Option<nat>)
    requires UsersValid(db.users, db.nextId)
    ensures r == ByEmail(db.users, email)
  {
    if exists k :: k in db.users && db.users[k].email == email {
      var k :| k in db.users && db.users[k].email == email;
      r := Some(k);
    } else {
      r := None;
    }
  }

  // ---------------------------------------------------------------------------
  // properties
  // ---------------------------------------------------------------------------

  /** A login keeps the table consistent: ids, Google ids and emails stay unique. */
  lemma LoginKeepsUsersValid(users: map<nat, User>, nextId: nat, p: Profile)
    requires UsersValid(users, nextId)
    ensures var l := GoogleLogin(users, nextId, p);
            UsersValid(l.users, l.nextId)
  {
    if ByGoogleId(users, p.id).None? && p.emails.Some? && |p.emails.value| > 0 && p.photos.Some? {
      var l := GoogleLogin(users, nextId, p);
      var u := l.result.value;
      match ByEmail(users, p.emails.value[0])
      case Some(k) =>
        assert l.users == users[k := u] && l.nextId == nextId;
        LinkKeepsUsersValid(users, nextId, k, u);
      case None =>
        assert l.users == users[nextId := u] && l.nextId == nextId + 1;
        CreateKeepsUsersValid(users, nextId, u);
    }
  }

  /** Linking a Google id no user has to the user of the profile's email. */
  lemma LinkKeepsUsersValid(users: map<nat, User>, nextId: nat, k: nat, u: User)
    requires UsersValid(users, nextId) && k in users
    requires u.id == k && u.email == users[k].email && u.googleId.Some?
    requires forall j :: j in users ==> users[j].googleId != u.googleId
    ensures UsersValid(users[k := u], nextId)
  {
  }

  /** Creating a user under the next id, with a Google id and an email no user has. */
  lemma CreateKeepsUsersValid(users: map<nat, User>, nextId: nat, u: User)
    requires UsersValid(users, nextId)
    requires u.id == nextId && u.googleId.Some?
    requires forall j :: j in users ==> users[j].googleId != u.googleId && users[j].email != u.email
    ensures UsersValid(users[nextId := u], nextId + 1)
  {
  }

  /** A known Google account is returned as stored, and nothing is written. */
  lemma KnownGoogleIdReturned(users: map<nat, User>, nextId: nat, p: Profile, k: nat)
    requires UsersValid(users, nextId)
    requires k in users && users[k].googleId == Some(p.id)
    ensures GoogleLogin(users, nextId, p) == Login(Ok(users[k]), users, nextId)
  {
  }

  /** A new Google account whose first email is known is linked to that user: same id,
      email and role, now carrying the Google id. */
  lemma EmailUserLinked(users: map<nat, User>, nextId: nat, p: Profile, k: nat)
    requires UsersValid(users, nextId)
    requires forall j :: j in users ==> users[j].googleId != Some(p.id)
    requires p.emails.Some? && |p.emails.value| > 0 && p.photos.Some?
    requires k in users && users[k].email == p.emails.value[0]
    ensures var l := GoogleLogin(users, nextId, p);
            && l.result.Ok? && l.nextId == nextId && l.users.Keys == users.Keys
            && l.result.value.id == k && l.result.value.email == users[k].email
            && l.result.value.role == users[k].role && l.result.value.googleId == Some(p.id)
            && l.users[k] == l.result.value
  {
  }

  /** An unknown Google account with an unknown email becomes a new user with role 'user'
      under the next id. */
  lemma UnknownUserCreated(users: map<nat, User>, nextId: nat, p: Profile)
    requires UsersValid(users, nextId)
    requires p.emails.Some? && |p.emails.value| > 0 && p.photos.Some?
    requires forall j :: j in users ==> users[j].googleId != Some(p.id) && users[j].email != p.emails.value[0]
    ensures var l := GoogleLogin(users, nextId, p);
            && l.result.Ok? && l.result.value.role == "user" && l.result.value.id == nextId
            && l.result.value.email == p.emails.value[0]
            && nextId !in users && l.users == users[nextId := l.result.value] && l.nextId == nextId + 1
  {
  }

  /** At most one user is written per login, and a failed login writes nothing. */
  lemma AtMostOneWrite(users: map<nat, User>, nextId: nat, p: Profile)
    requires UsersValid(users, nextId)
    ensures var l := GoogleLogin(users, nextId, p);
            && (l.users == users || exists k :: k in l.users && l.users == users[k := l.users[k]])
            && (l.result.Err? ==> l.users == users && l.nextId == nextId)
  {
    var l := GoogleLogin(users, nextId, p);
    if l.users != users {
      var k := if ByEmail(users, p.emails.value[0]).Some? then ByEmail(users, p.emails.value[0]).value else nextId;
      assert l.users == users[k := l.users[k]];
    }
  }

  /** `serializeUser`: the session keeps the user's id only. */
  function SerializeUser(u: User): (id: nat)
    ensures id == u.id
  {
    u.id
  }

  /** `deserializeUser`: the user with that id, or null when there is none. */
  function DeserializeUser(users: map<nat, User>, id: nat): (r: Option<User>)
    ensures r.Some? <==> id in users
    ensures r.Some? ==> r.value == users[id]
  {
    if id in users then Some(users[id]) else None
  }

  /** A user who has just logged in is found again from the session. */
  lemma SessionRoundTrip(users: map<nat, User>, nextId: nat, p: Profile)
    requires UsersValid(users, nextId)
    requires GoogleLogin(users, nextId, p).result.Ok?
    ensures var l := GoogleLogin(users, nextId, p);
            DeserializeUser(l.users, SerializeUser(l.result.value)) == Some(l.result.value)
  {
  }
}
