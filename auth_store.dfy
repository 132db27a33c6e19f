/** The persisted authentication store: its `auth` slice holds the signed-in
    user and the bearer token. Every setter is a `set(state => ...)` updater
    that replaces one or both fields and leaves the rest of the state as it
    was; the updaters are the functions below, and `Store` is the mutable
    store that applies them. */
module AuthStore {
  import opened Types

  /** The signed-in user as the login response describes it. */
  datatype AuthUser = AuthUser(id: int, email: string, isAdmin: bool, createdAt: string)

  /** The data fields of the `auth` slice. */
  datatype AuthState = AuthState(user: Option<AuthUser>, accessToken: string)

  /** What `partialize` hands to the storage layer. */
  datatype PersistedAuth = PersistedAuth(user: Option<AuthUser>, accessToken: string)

  /** The state the store is created with. */
  function InitialState(): (s: AuthState)
    ensures s.user == None && s.accessToken == ""
  {
    AuthState(None, "")
  }

  /** The updater of `setUser(user)`. */
  function WithUser(s: AuthState, user: Option<AuthUser>): (r: AuthState)
    ensures r.user == user
    ensures r.accessToken == s.accessToken
  {
    s.(user := user)
  }

  /** The updater of `setAccessToken(accessToken)`. */
  function WithAccessToken(s: AuthState, accessToken: string): (r: AuthState)
    ensures r.accessToken == accessToken
    ensures r.user == s.user
  {
    s.(accessToken := accessToken)
  }

  /** The updater of `resetAccessToken()`: it clears the user as well. */
  function AfterResetAccessToken(s: AuthState): (r: AuthState)
    ensures r == InitialState()
  {
    s.(accessToken := "", user := None)
  }

  /** The updater of `reset()`. */
  function AfterReset(s: AuthState): (r: AuthState)
    ensures r == InitialState()
  {
    s.(user := None, accessToken := "")
  }

  /** `partialize`: the persisted projection of the state. */
  function Partialize(s: AuthState): PersistedAuth {
    PersistedAuth(s.user, s.accessToken)
  }

  /** The state a persisted projection stands for. */
  function Restore(p: PersistedAuth): AuthState {
    AuthState(p.user, p.accessToken)
  }

  /** The projection keeps both data fields: nothing the store holds is lost
      when it is persisted, and nothing else is written. */
  lemma PartializeKeepsEverything(s: AuthState)
    ensures Restore(Partialize(s)) == s
    ensures Partialize(Restore(Partialize(s))) == Partialize(s)
  {
  }

  /** `reset` is idempotent and `resetAccessToken` has the same effect. */
  lemma ResetLaws(s: AuthState)
    ensures AfterReset(AfterReset(s)) == AfterReset(s)
    ensures AfterResetAccessToken(s) == AfterReset(s)
  {
  }

  /** The two setters touch disjoint fields, so their order does not matter,
      and a reset erases whatever either of them wrote. */
  lemma SettersCommute(s: AuthState, user: Option<AuthUser>, token: string)
    ensures WithAccessToken(WithUser(s, user), token) == WithUser(WithAccessToken(s, token), user)
    ensures AfterReset(WithUser(s, user)) == AfterReset(s)
    ensures AfterReset(WithAccessToken(s, token)) == AfterReset(s)
  {
  }

  /** The store object behind `useAuthStore`, reduced to its `auth` slice. */
  class Store {
    var user: Option<AuthUser>
    var accessToken: string

    function State(): AuthState
      reads this
    {
      AuthState(user, accessToken)
    }

    constructor ()
      ensures State() == InitialState()
    {
      user := None;
      accessToken := "";
    }

    method SetUser(u: Option<AuthUser>)
      modifies this
      ensures State() == WithUser(old(State()), u)
    {
      user := u;
    }

    method SetAccessToken(t: string)
      modifies this
      ensures State() == WithAccessToken(old(State()), t)
    {
      accessToken := t;
    }

    method ResetAccessToken()
      modifies this
      ensures State() == AfterResetAccessToken(old(State()))
    {
      accessToken, user := "", None;
    }

    method Reset()
      modifies this
      ensures State() == AfterReset(old(State()))
    {
      user, accessToken := None, "";
    }
  }
}
