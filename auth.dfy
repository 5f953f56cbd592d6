/**
 * Admin credential check and the admin gate (server/auth.ts).
 *
 * The database lookup and bcrypt's comparison are oracles: each answers or
 * throws, and `verifyAdminCredentials` catches what they throw.
 */
module Auth {
  import opened Wrappers

  const DefaultAdminUsername := "admin"
  const DefaultAdminPassword := "admin123"
  /** PostgREST's code for a table missing from its schema cache. */
  const TableNotInSchemaCache := "PGRST205"

  /** `ADMIN_USERNAME` and `ADMIN_PASSWORD` as the environment has them. */
  datatype Env = Env(adminUsername: Option<string>, adminPassword: Option<string>)

  /** `process.env.X || fallback` */
  function OrDefault(v: Option<string>, fallback: string): (r: string)
    ensures v.Some? && v.value != "" ==> r == v.value
    ensures v.None? || v.value == "" ==> r == fallback
  {
    if v.Some? && v.value != "" then v.value else fallback
  }

  /** The development fallback: the given pair equals the configured (or default) pair. */
  predicate EnvMatch(env: Env, username: string, password: string) {
    username == OrDefault(env.adminUsername, DefaultAdminUsername)
    && password == OrDefault(env.adminPassword, DefaultAdminPassword)
  }

  /** A PostgREST error, with its code when it has one. */
  datatype DbError = DbError(code: Option<string>)

  /** `select("password_hash").eq("username", u).single()`: it throws, or answers
      with an error and/or the row's password hash. */
  datatype Lookup = LookupThrew | Answered(error: Option<DbError>, passwordHash: Option<string>)

  /** `bcrypt.compare(password, hash)`: it throws or answers. */
  datatype Comparison = Compared(matches: bool) | CompareThrew

  /** `verifyAdminCredentials(username, password)`. */
  function VerifyAdminCredentials(dbAvailable: bool, env: Env, lookup: string -> Lookup,
                                  compare: (string, string) -> Comparison,
                                  username: string, password: string): (r: bool)
    ensures !dbAvailable ==> (r <==> EnvMatch(env, username, password))
    ensures dbAvailable ==> match lookup(username)
      case LookupThrew => !r
      case Answered(error, hash) =>
        if error.Some? && error.value.code == Some(TableNotInSchemaCache) then (r <==> EnvMatch(env, username, password))
        else if error.Some? then !r
        else if hash.None? then !r
        else (r <==> compare(password, hash.value) == Compared(true))
  {
    if !dbAvailable then EnvMatch(env, username, password)
    else match lookup(username)
      case LookupThrew => false
      case Answered(error, hash) =>
        if error.Some? && error.value.code == Some(TableNotInSchemaCache) then EnvMatch(env, username, password)
        else if error.Some? then false
        else if hash.None? then false
        else match compare(password, hash.value)
          case CompareThrew => false
          case Compared(m) => m
  }

  /** Access is granted only by the environment's pair (no database, or no
      admin table) or by a matching hash of an admin row. */
  lemma GrantedOnlyByEnvOrHash(dbAvailable: bool, env: Env, lookup: string -> Lookup,
                               compare: (string, string) -> Comparison, username: string, password: string)
    requires VerifyAdminCredentials(dbAvailable, env, lookup, compare, username, password)
    ensures
      || (!dbAvailable && EnvMatch(env, username, password))
      || (dbAvailable && lookup(username).Answered? && lookup(username).error == Some(DbError(Some(TableNotInSchemaCache)))
          && EnvMatch(env, username, password))
      || (dbAvailable && lookup(username) == Answered(None, lookup(username).passwordHash)
          && lookup(username).passwordHash.Some?
          && compare(password, lookup(username).passwordHash.value) == Compared(true))
  {
    if dbAvailable {
      var l := lookup(username);
      if l.Answered? && l.error.Some? {
        assert l.error == Some(DbError(Some(TableNotInSchemaCache)));
      }
    }
  }

  /** With neither variable set, the fallback admits exactly admin / admin123. */
  lemma DefaultFallbackPair(lookup: string -> Lookup, compare: (string, string) -> Comparison,
                            username: string, password: string)
    ensures VerifyAdminCredentials(false, Env(None, None), lookup, compare, username, password)
            <==> username == "admin" && password == "admin123"
  {
  }

  /** An empty variable counts as unset. */
  lemma EmptyVariableIsUnset(env: Env, username: string, password: string)
    requires env.adminUsername == Some("") && env.adminPassword == Some("")
    ensures EnvMatch(env, username, password) <==> EnvMatch(Env(None, None), username, password)
  {
  }

  // ---------------------------------------------------------------------------
  // requireAuth

  /** `req.session`, when there is one; `isAdmin` is absent until a login sets it. */
  datatype Session = Session(isAdmin: Option<bool>)

  datatype Gate = Next | Respond(status: int, error: string)

  /** `requireAuth`: a falsy `req.session?.isAdmin` is answered with 401, anything else passes on. */
  function RequireAuth(session: Option<Session>): (r: Gate)
    ensures r.Next? <==> session.Some? && session.value.isAdmin == Some(true)
    ensures r.Respond? ==> r.status == 401 && r.error == "Unauthorized"
  {
    if session.Some? && session.value.isAdmin == Some(true) then Next
    else Respond(401, "Unauthorized")
  }
}
