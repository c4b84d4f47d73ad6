/** Signing users and admins in and out. Password comparison and token signing
    are given as functions: the model does not look inside them. */
module AuthService {
  import opened Common
  import opened Store

  /** The one answer to an unknown email and to a wrong password alike. */
  const WrongCredentials: HttpError := HttpError(NotFound, "Email or password is wrong")

  /** What the signed token carries. */
  datatype Payload = Payload(sub: Id, email: string, roles: seq<string>)

  /** An account found by email: its id, email and stored password hash. */
  datatype Account = Account(id: Id, email: string, passwordHash: string)

  const UserRoles: seq<string> := ["user"]

  function AdminRoles(isSuperAdmin: bool): (r: seq<string>)
    ensures |r| >= 1 && r[0] == "admin"
    ensures "superadmin" in r <==> isSuperAdmin
    ensures |r| == if isSuperAdmin then 2 else 1
  {
    if isSuperAdmin then ["admin", "superadmin"] else ["admin"]
  }

  /** The decision shared by both sign-ins: an account was found and the
      password matches its hash. */
  function Admit(found: Option<Account>, password: string, compare: (string, string) -> bool): (r: Result<Account>)
    ensures r.Ok? <==> found.Some? && compare(password, found.value.passwordHash)
    ensures r.Ok? ==> r.value == found.value
    ensures r.Err? ==> r.error == WrongCredentials
  {
    if found.None? then Err(WrongCredentials)
    else if !compare(password, found.value.passwordHash) then Err(WrongCredentials)
    else Ok(found.value)
  }

  /** A caller cannot tell an unknown email from a wrong password. */
  lemma UniformRefusal(a: Account, password: string, compare: (string, string) -> bool)
    requires !compare(password, a.passwordHash)
    ensures Admit(None, password, compare) == Admit(Some(a), password, compare)
  {
  }

  /** The device as the session records it: model, system and browser as the
      user-agent parser reports them, a missing part printed as `undefined`. */
  datatype DeviceInfo = DeviceInfo(model: Option<string>, os: Option<string>, browser: Option<string>)

  function Part(s: Option<string>): string {
    if s.Some? then s.value else "undefined"
  }

  function Device(d: DeviceInfo): (r: string)
    ensures |r| >= 2
    ensures Part(d.model) + " " <= r
    ensures d.model.None? && d.os.None? && d.browser.None? ==> r == "undefined undefined undefined"
    ensures d.browser.Some? ==> |d.browser.value| <= |r| && r[|r| - |d.browser.value|..] == d.browser.value
  {
    Part(d.model) + " " + Part(d.os) + " " + Part(d.browser)
  }

  /** The user holding `email`, if any; emails are unique. */
  method UserByEmail(db: Db, email: string) returns (r: Option<Account>)
    requires db.Valid()
    ensures r.None? <==> forall k :: k in db.users ==> db.users[k].email != email
    ensures r.Some? ==>
      r.value.id in db.users && r.value.email == email && r.value.passwordHash == db.users[r.value.id].passwordHash
    ensures r.Some? ==> forall k :: k in db.users && db.users[k].email == email ==> k == r.value.id
  {
    if k :| k in db.users && db.users[k].email == email {
      r := Some(Account(k, email, db.users[k].passwordHash));
    } else {
      r := None;
    }
  }

  /** The admin holding `email`, if any, with its super-admin flag. */
  method AdminByEmail(db: Db, email: string) returns (r: Option<(Account, bool)>)
    requires db.Valid()
    ensures r.None? <==> forall k :: k in db.admins ==> db.admins[k].email != email
    ensures r.Some? ==> var (a, super) := r.value;
      a.id in db.admins && a.email == email && a.passwordHash == db.admins[a.id].passwordHash
      && super == db.admins[a.id].isSuperAdmin
    ensures r.Some? ==> forall k :: k in db.admins && db.admins[k].email == email ==> k == r.value.0.id
  {
    if k :| k in db.admins && db.admins[k].email == email {
      r := Some((Account(k, email, db.admins[k].passwordHash), db.admins[k].isSuperAdmin));
    } else {
      r := None;
    }
  }

  /** Signs a user in: on success a session is recorded and a token carrying
      the user's id, email and the role `user` is returned. The session insert
      is not awaited: the answer does not wait for it, and `sessionInsert`
      only decides whether the session row is written. */
  method SignInUser(db: Db, email: string, password: string, compare: (string, string) -> bool,
                    sign: Payload -> string, device: DeviceInfo, ip: Option<string>, sessionInsert: Verdict)
    returns (r: Result<string>)
    requires db.Valid()
    modifies db`sessions, db`nextId
    ensures db.Valid()
    ensures r.Err? <==> forall k :: k in db.users && db.users[k].email == email ==> !compare(password, db.users[k].passwordHash)
    ensures r.Err? ==> r.error == WrongCredentials && db.sessions == old(db.sessions) && db.nextId == old(db.nextId)
    ensures r.Ok? ==> exists k :: (
      && k in db.users && db.users[k].email == email
      && r.value == sign(Payload(k, email, UserRoles))
      && (sessionInsert.Accept? ==>
            db.sessions == old(db.sessions)[old(db.nextId) := Session(k, Device(device), ip.GetOr(""))]
            && db.nextId == old(db.nextId) + 1))
    ensures r.Ok? && sessionInsert.Reject? ==> db.sessions == old(db.sessions) && db.nextId == old(db.nextId)
  {
    var found := UserByEmail(db, email);
    var admitted := Admit(found, password, compare);
    if admitted.Err? {
      r := Err(admitted.error);
      return;
    }
    var a := admitted.value;
    if sessionInsert.Accept? {
      RecordSession(db, Session(a.id, Device(device), ip.GetOr("")));
    }
    r := Ok(sign(Payload(a.id, a.email, UserRoles)));
  }

  /** Stores one session row under a fresh identifier. */
  method RecordSession(db: Db, session: Session)
    requires db.Valid()
    modifies db`sessions, db`nextId
    ensures db.Valid()
    ensures db.sessions == old(db.sessions)[old(db.nextId) := session] && db.nextId == old(db.nextId) + 1
  {
    var id := db.FreshId();
    db.sessions := db.sessions[id := session];
    assert KeysBelow(db.sessions, db.nextId);
    db.StaysValid();
  }

  /** Signs an admin in: no session is recorded, and the token's roles are
      `admin`, with `superadmin` added for a super admin. */
  method SignInAdmin(db: Db, email: string, password: string, compare: (string, string) -> bool,
                     sign: Payload -> string)
    returns (r: Result<string>)
    requires db.Valid()
    ensures r.Err? <==> forall k :: k in db.admins && db.admins[k].email == email ==> !compare(password, db.admins[k].passwordHash)
    ensures r.Err? ==> r.error == WrongCredentials
    ensures r.Ok? ==> exists k :: (
      && k in db.admins && db.admins[k].email == email
      && r.value == sign(Payload(k, email, AdminRoles(db.admins[k].isSuperAdmin))))
  {
    var found := AdminByEmail(db, email);
    var admitted := Admit(if found.Some? then Some(found.value.0) else None, password, compare);
    if admitted.Err? {
      r := Err(admitted.error);
      return;
    }
    var a := admitted.value;
    r := Ok(sign(Payload(a.id, a.email, AdminRoles(found.value.1))));
  }

  /** The user a session belongs to. */
  function SessionUser(s: Session): Id {
    s.userId
  }

  /** The sessions of `userId`. */
  function SessionsOf(sessions: map<Id, Session>, userId: Id): (r: set<Id>)
    ensures forall k :: k in r <==> k in sessions && sessions[k].userId == userId
    ensures r !! Without(sessions, SessionUser, userId).Keys && r + Without(sessions, SessionUser, userId).Keys == sessions.Keys
  {
    set k | k in sessions && sessions[k].userId == userId
  }

  /** Signs a user out of every device: all sessions of the user go, those of
      other users stay. The answer is the number of sessions deleted. */
  method SignOutUser(db: Db, userId: Id) returns (count: nat)
    requires db.Valid()
    modifies db`sessions
    ensures db.Valid()
    ensures db.sessions == Without(old(db.sessions), SessionUser, userId)
    ensures count == |SessionsOf(old(db.sessions), userId)|
  {
    var left := Without(db.sessions, SessionUser, userId);
    count := |SessionsOf(db.sessions, userId)|;
    db.sessions := left;
    db.StaysValid();
  }
}
