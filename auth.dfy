/**
 * The back end's admin sessions: an in-memory map from session id to session,
 * login against the user table, cookie-based lookup with lazy expiry, logout,
 * the 401/403 gates and the periodic sweep of expired sessions.
 *
 * The clock (`now`, milliseconds), the freshly generated session id, the user
 * table and the password check are parameters; the session id a request's
 * cookie header carries is given already parsed.
 */
module Auth {
  import opened Wrappers

  datatype UserRole = ADMIN | EDITOR | VIEWER

  /** A stored session. */
  datatype Session = Session(userId: string, email: string, role: UserRole, expiresAt: int)

  /** A row of the user table, as far as login reads it. */
  datatype User = User(id: string, email: string, role: UserRole, isActive: bool, passwordHash: string)

  /** `{ success: true, session, sessionId }` or `{ success: false, error }`. */
  datatype LoginResult = LoggedIn(session: Session, sessionId: string) | LoginFailed(error: string)

  /** The identity a gate hands to the handler: the session and its user fields. */
  datatype AuthContext = AuthContext(session: Session, userId: string, email: string, role: UserRole)

  /** A gate's verdict: a JSON error response with its status, or the caller's context. */
  datatype GateResult = Rejected(status: int, error: string) | Admitted(context: AuthContext)

  const SessionCookieName: string := "daleel-session"
  /** 24 hours in milliseconds. */
  const SessionExpiry: int := 24 * 60 * 60 * 1000

  /** A session has expired once its expiry instant lies strictly before `now`. */
  predicate Expired(s: Session, now: int) {
    s.expiresAt < now
  }

  /**
   * `authenticateUser`: an unknown e-mail, an inactive user and a wrong password
   * all fail alike; success stores a new session under `freshId`.
   */
  function Login(sessions: map<string, Session>, users: map<string, User>, email: string, password: string,
                 matches: (string, string) -> bool, freshId: string, now: int): (res: (LoginResult, map<string, Session>))
    ensures res.0.LoginFailed? ==> res.0.error == "Invalid credentials" && res.1 == sessions
    ensures res.0.LoggedIn? <==> email in users && users[email].isActive && matches(password, users[email].passwordHash)
    ensures res.0.LoggedIn? ==>
      var u := users[email];
      res.0.sessionId == freshId
      && res.0.session == Session(u.id, u.email, u.role, now + SessionExpiry)
      && res.1 == sessions[freshId := res.0.session]
  {
    if email !in users || !users[email].isActive then (LoginFailed("Invalid credentials"), sessions)
    else if !matches(password, users[email].passwordHash) then (LoginFailed("Invalid credentials"), sessions)
    else
      var u := users[email];
      var s := Session(u.id, u.email, u.role, now + SessionExpiry);
      (LoggedIn(s, freshId), sessions[freshId := s])
  }

  /** `!sessionId`: the cookie is missing or empty. */
  predicate NoCookie(sid: Option<string>) {
    sid.None? || sid.value == ""
  }

  /**
   * `getSession`: the session the cookie names, unless there is no cookie, no
   * such session, or it has expired, in which case it is also deleted.
   */
  function Lookup(sessions: map<string, Session>, sid: Option<string>, now: int): (res: (Option<Session>, map<string, Session>))
    ensures res.0.Some? <==> !NoCookie(sid) && sid.value in sessions && !Expired(sessions[sid.value], now)
    ensures res.0.Some? ==> res.0.value == sessions[sid.value]
    ensures forall k :: k in res.1 <==> k in sessions && !(!NoCookie(sid) && sid.value == k && Expired(sessions[k], now))
    ensures forall k :: k in res.1 ==> res.1[k] == sessions[k]
  {
    if NoCookie(sid) then (None, sessions)
    else if sid.value !in sessions then (None, sessions)
    else if Expired(sessions[sid.value], now) then (None, sessions - {sid.value})
    else (Some(sessions[sid.value]), sessions)
  }

  /** `destroySession`: forget the cookie's session, if there is a cookie. */
  function Logout(sessions: map<string, Session>, sid: Option<string>): (after: map<string, Session>)
    ensures forall k :: k in after <==> k in sessions && !(!NoCookie(sid) && k == sid.value)
    ensures forall k :: k in after ==> after[k] == sessions[k]
  {
    if NoCookie(sid) then sessions else sessions - {sid.value}
  }

  /** The sessions the sweep keeps: exactly those that have not expired. */
  function Live(sessions: map<string, Session>, now: int): (live: map<string, Session>)
    ensures forall k :: k in live <==> k in sessions && !Expired(sessions[k], now)
    ensures forall k :: k in live ==> live[k] == sessions[k]
  {
    map k | k in sessions && !Expired(sessions[k], now) :: sessions[k]
  }

  function ContextOf(s: Session): AuthContext {
    AuthContext(s, s.userId, s.email, s.role)
  }

  /** `requireAuth`'s decision on what `getSession` returned. */
  function AuthGate(s: Option<Session>): (g: GateResult)
    ensures g.Rejected? <==> s.None?
    ensures g.Rejected? ==> g.status == 401 && g.error == "Unauthorized"
    ensures g.Admitted? ==> g.context.session == s.value && g.context.role == s.value.role
  {
    if s.None? then Rejected(401, "Unauthorized") else Admitted(ContextOf(s.value))
  }

  /** `requireRole(allowed)`'s decision: no session is 401, a role outside the list is 403. */
  function RoleGate(allowed: seq<UserRole>, s: Option<Session>): (g: GateResult)
    ensures s.None? ==> g == Rejected(401, "Unauthorized")
    ensures s.Some? && s.value.role !in allowed ==> g == Rejected(403, "Forbidden")
    ensures g.Admitted? <==> s.Some? && s.value.role in allowed
  {
    if s.None? then Rejected(401, "Unauthorized")
    else if s.value.role !in allowed then Rejected(403, "Forbidden")
    else Admitted(ContextOf(s.value))
  }

  /** The role gate admits exactly what the plain gate admits and the role list allows, with the same context. */
  lemma {:induction false} RoleGateRefinesAuthGate(allowed: seq<UserRole>, s: Option<Session>)
    ensures RoleGate(allowed, s).Admitted? ==> RoleGate(allowed, s) == AuthGate(s)
    ensures AuthGate(s).Rejected? ==> RoleGate(allowed, s) == AuthGate(s)
    ensures (forall r: UserRole :: r in allowed) ==> RoleGate(allowed, s) == AuthGate(s)
  {
  }

  /** Allowing more roles never turns an admitted request away. */
  lemma {:induction false} RoleGateMonotone(allowed: seq<UserRole>, more: seq<UserRole>, s: Option<Session>)
    requires forall r :: r in allowed ==> r in more
    ensures RoleGate(allowed, s).Admitted? ==> RoleGate(more, s) == RoleGate(allowed, s)
  {
  }

  /**
   * A session created by a login at `now` is found by its cookie at every
   * instant up to 24 hours later, and no longer after that, when it is deleted.
   */
  lemma {:induction false} LoginThenLookup(sessions: map<string, Session>, users: map<string, User>, email: string, password: string,
                        matches: (string, string) -> bool, freshId: string, now: int, later: int)
    requires freshId != ""
    requires Login(sessions, users, email, password, matches, freshId, now).0.LoggedIn?
    ensures var after := Login(sessions, users, email, password, matches, freshId, now);
      var found := Lookup(after.1, Some(freshId), later);
      (later <= now + SessionExpiry ==> found.0 == Some(after.0.session) && found.1 == after.1)
      && (later > now + SessionExpiry ==> found.0.None? && freshId !in found.1)
  {
  }

  /** Sweeping at an instant up to a lookup's own clock never changes what the lookup finds. */
  lemma {:induction false} SweepInvisible(sessions: map<string, Session>, sid: Option<string>, swept: int, now: int)
    requires swept <= now
    ensures Lookup(Live(sessions, swept), sid, now).0 == Lookup(sessions, sid, now).0
  {
  }

  /** After logout the cookie's session can no longer be found. */
  lemma {:induction false} LogoutThenLookup(sessions: map<string, Session>, sid: Option<string>, now: int)
    ensures Lookup(Logout(sessions, sid), sid, now).0.None?
  {
  }

  /** The `sessions` map of the module. */
  class SessionStore {
    var sessions: map<string, Session>

    constructor ()
      ensures sessions == map[]
    {
      sessions := map[];
    }

    method AuthenticateUser(users: map<string, User>, email: string, password: string,
                            matches: (string, string) -> bool, freshId: string, now: int) returns (r: LoginResult)
      modifies this
      ensures (r, sessions) == Login(old(sessions), users, email, password, matches, freshId, now)
    {
      if email !in users || !users[email].isActive {
        return LoginFailed("Invalid credentials");
      }
      var user := users[email];
      if !matches(password, user.passwordHash) {
        return LoginFailed("Invalid credentials");
      }
      var session := Session(user.id, user.email, user.role, now + SessionExpiry);
      sessions := sessions[freshId := session];
      return LoggedIn(session, freshId);
    }

    method GetSession(sid: Option<string>, now: int) returns (s: Option<Session>)
      modifies this
      ensures (s, sessions) == Lookup(old(sessions), sid, now)
    {
      if sid.None? || sid.value == "" {
        return None;
      }
      var id := sid.value;
      if id !in sessions {
        return None;
      }
      var session := sessions[id];
      if session.expiresAt < now {
        sessions := sessions - {id};
        return None;
      }
      return Some(session);
    }

    method DestroySession(sid: Option<string>)
      modifies this
      ensures sessions == Logout(old(sessions), sid)
    {
      if sid.Some? && sid.value != "" {
        sessions := sessions - {sid.value};
      }
    }

    /** `requireAuth`: look the session up (deleting it if expired) and gate on it. */
    method RequireAuth(sid: Option<string>, now: int) returns (g: GateResult)
      modifies this
      ensures var found := Lookup(old(sessions), sid, now);
        g == AuthGate(found.0) && sessions == found.1
    {
      var s := GetSession(sid, now);
      g := AuthGate(s);
    }

    /** The handler `requireRole(allowed)` returns, applied to a request. */
    method RequireRole(allowed: seq<UserRole>, sid: Option<string>, now: int) returns (g: GateResult)
      modifies this
      ensures var found := Lookup(old(sessions), sid, now);
        g == RoleGate(allowed, found.0) && sessions == found.1
    {
      var s := GetSession(sid, now);
      g := RoleGate(allowed, s);
    }

    /** The one-minute timer's body: delete every expired session. */
    method Sweep(now: int)
      modifies this
      ensures sessions == Live(old(sessions), now)
    {
      ghost var initial := sessions;
      var ids := sessions.Keys;
      while ids != {}
        invariant ids <= initial.Keys
        invariant forall k :: k in sessions <==> k in initial && (k in ids || !Expired(initial[k], now))
        invariant forall k :: k in sessions ==> sessions[k] == initial[k]
        decreases ids
      {
        var id :| id in ids;
        if sessions[id].expiresAt < now {
          sessions := sessions - {id};
        }
        ids := ids - {id};
      }
      assert sessions == Live(initial, now);
    }
  }
}
