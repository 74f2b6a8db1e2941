/**
 * The session held by `AuthProvider`: whether the user is authenticated, the
 * JWT held in memory, the `loading` flag that gates rendering until the
 * stored token has been read, and the browser's durable key-value storage,
 * where the token lives under the key "token".
 *
 * `AuthState` and `Step` state each transition on values; the class
 * `AuthProvider` performs the same transitions in place.
 */
module AuthContext {
  import opened Wrappers
  import opened JsValues
  import opened Requests

  /** The durable storage key of the token. */
  const TokenKey: string := "token"

  /** Durable key-value storage that survives a reload. */
  type Storage = map<string, string>

  datatype AuthState = AuthState(isAuthenticated: bool, jwtToken: Option<string>, loading: bool, storage: Storage)

  /** The three transitions: `login(token)`, `logout()` and the one-shot restore effect. */
  datatype Event = LoggedIn(token: string) | LoggedOut | Restored

  /** What the provider renders: the loading placeholder or its children. */
  datatype View = Placeholder | Children

  /** `localStorage.getItem("token")`. */
  function StoredToken(storage: Storage): Option<string>
  {
    if TokenKey in storage then Some(storage[TokenKey]) else None
  }

  /** The state of a newly started process: unauthenticated, no token, loading, over whatever storage survived. */
  function Fresh(storage: Storage): AuthState
  {
    AuthState(false, None, true, storage)
  }

  /** One transition. Only the restore effect touches `loading`, and it only ever clears it. */
  function Step(s: AuthState, e: Event): (r: AuthState)
    ensures e.Restored? ==> !r.loading && r.storage == s.storage
    ensures !e.Restored? ==> r.loading == s.loading
    ensures e.LoggedIn? ==> r.isAuthenticated && r.jwtToken == Some(e.token) && StoredToken(r.storage) == Some(e.token)
    ensures e.LoggedOut? ==> !r.isAuthenticated && r.jwtToken == None && StoredToken(r.storage) == None
  {
    match e
    case LoggedIn(token) =>
      s.(isAuthenticated := true, jwtToken := Some(token), storage := s.storage[TokenKey := token])
    case LoggedOut =>
      s.(isAuthenticated := false, jwtToken := None, storage := s.storage - {TokenKey})
    case Restored =>
      var token := StoredToken(s.storage);
      if TruthyString(token) then s.(isAuthenticated := true, jwtToken := token, loading := false)
      else s.(loading := false)
  }

  /** The state after a sequence of transitions, in order. */
  function Run(s: AuthState, es: seq<Event>): AuthState
    decreases |es|
  {
    if es == [] then s else Run(Step(s, es[0]), es[1..])
  }

  /** The render gate. */
  function Render(s: AuthState): (v: View)
    ensures v == Children <==> !s.loading
  {
    if s.loading then Placeholder else Children
  }

  /**
   * The session invariant: authenticated exactly when a token is held; a held
   * token is the stored one; and once loading is over, an unauthenticated
   * session means there is no usable (non-empty) stored token.
   */
  ghost predicate Consistent(s: AuthState)
  {
    && (s.isAuthenticated <==> s.jwtToken.Some?)
    && (s.jwtToken.Some? ==> StoredToken(s.storage) == s.jwtToken)
    && (!s.loading && s.jwtToken.None? ==> !TruthyString(StoredToken(s.storage)))
  }

  lemma FreshState(storage: Storage)
    ensures Consistent(Fresh(storage))
    ensures !Fresh(storage).isAuthenticated && Fresh(storage).jwtToken == None && Fresh(storage).loading
    ensures Render(Fresh(storage)) == Placeholder
  {
  }

  lemma LoginEffect(s: AuthState, token: string)
    ensures var t := Step(s, LoggedIn(token));
      t.isAuthenticated && t.jwtToken == Some(token) && StoredToken(t.storage) == Some(token) && t.loading == s.loading
  {
  }

  lemma LogoutEffect(s: AuthState)
    ensures var t := Step(s, LoggedOut);
      !t.isAuthenticated && t.jwtToken == None && StoredToken(t.storage) == None && t.loading == s.loading
    ensures Step(Step(s, LoggedOut), LoggedOut) == Step(s, LoggedOut)
  {
  }

  lemma RestoreEffect(s: AuthState)
    ensures var t := Step(s, Restored);
      && !t.loading
      && t.storage == s.storage
      && (TruthyString(StoredToken(s.storage)) ==> t.isAuthenticated && t.jwtToken == StoredToken(s.storage))
      && (!TruthyString(StoredToken(s.storage)) ==> t == s.(loading := false))
  {
  }

  lemma StepPreservesConsistency(s: AuthState, e: Event)
    requires Consistent(s)
    ensures Consistent(Step(s, e))
  {
  }

  lemma {:induction false} RunPreservesConsistency(s: AuthState, es: seq<Event>)
    requires Consistent(s)
    ensures Consistent(Run(s, es))
    decreases |es|
  {
    if es != [] {
      StepPreservesConsistency(s, es[0]);
      RunPreservesConsistency(Step(s, es[0]), es[1..]);
    }
  }

  /** No transition sets `loading` back to true. */
  lemma {:induction false} LoadingOnlyCleared(s: AuthState, es: seq<Event>)
    ensures Run(s, es).loading ==> s.loading
    ensures !s.loading ==> Render(Run(s, es)) == Children
    decreases |es|
  {
    if es != [] {
      LoadingOnlyCleared(Step(s, es[0]), es[1..]);
    }
  }

  /** Once the restore effect has run, the children are rendered from then on, whatever happens next. */
  lemma {:induction false} RestoreOpensGate(storage: Storage, es: seq<Event>)
    ensures !Run(Fresh(storage), [Restored] + es).loading
    ensures Render(Run(Fresh(storage), [Restored] + es)) == Children
  {
    assert ([Restored] + es)[1..] == es;
    LoadingOnlyCleared(Step(Fresh(storage), Restored), es);
  }

  /** A reload restores every settled session whose token is not the empty string. */
  lemma ReloadRestoresSession(s: AuthState)
    requires Consistent(s) && !s.loading && s.jwtToken != Some("")
    ensures Step(Fresh(s.storage), Restored) == s
  {
  }

  /** After `login(token)` with a non-empty token, a new process restoring from the same storage ends in the same session. */
  lemma LoginSurvivesReload(s: AuthState, token: string)
    requires !s.loading && token != ""
    ensures Step(Fresh(Step(s, LoggedIn(token)).storage), Restored) == Step(s, LoggedIn(token))
  {
  }

  /** After `logout()`, a new process restoring from the same storage ends logged out as well. */
  lemma LogoutSurvivesReload(s: AuthState)
    requires !s.loading
    ensures Step(Fresh(Step(s, LoggedOut).storage), Restored) == Step(s, LoggedOut)
  {
  }

  /** `login("")` is accepted, but the empty token is falsy, so a reload drops the session. */
  lemma EmptyTokenLostOnReload(s: AuthState)
    ensures Step(s, LoggedIn("")).isAuthenticated
    ensures !Step(Fresh(Step(s, LoggedIn("")).storage), Restored).isAuthenticated
  {
  }

  /**
   * The management pages authorize with the stored token, the order page with
   * the token in memory: in a consistent authenticated session both give the
   * same Authorization header.
   */
  lemma MemoryAndStorageHeadersAgree(s: AuthState)
    requires Consistent(s) && s.isAuthenticated
    ensures BearerHeader(s.jwtToken) == BearerHeader(StoredToken(s.storage))
  {
  }

  class AuthProvider {
    var isAuthenticated: bool
    var jwtToken: Option<string>
    var loading: bool
    /** `localStorage`. */
    var storage: Storage

    function State(): AuthState
      reads this
    {
      AuthState(isAuthenticated, jwtToken, loading, storage)
    }

    ghost predicate Valid()
      reads this
    {
      Consistent(State())
    }

    /** Mounting the provider in a process whose storage holds `persisted`. */
    constructor (persisted: Storage)
      ensures Valid()
      ensures State() == Fresh(persisted)
    {
      isAuthenticated := false;
      jwtToken := None;
      loading := true;
      storage := persisted;
    }

    method Login(token: string)
      requires Valid()
      modifies this
      ensures Valid()
      ensures State() == Step(old(State()), LoggedIn(token))
      ensures isAuthenticated && jwtToken == Some(token) && StoredToken(storage) == Some(token)
      ensures loading == old(loading)
    {
      isAuthenticated := true;
      jwtToken := Some(token);
      storage := storage[TokenKey := token];
    }

    method Logout()
      requires Valid()
      modifies this
      ensures Valid()
      ensures State() == Step(old(State()), LoggedOut)
      ensures !isAuthenticated && jwtToken == None && StoredToken(storage) == None
      ensures loading == old(loading)
    {
      isAuthenticated := false;
      jwtToken := None;
      storage := storage - {TokenKey};
    }

    /** The mount effect: adopt a truthy stored token, then clear `loading`. */
    method RestoreSession()
      requires Valid()
      modifies this
      ensures Valid()
      ensures State() == Step(old(State()), Restored)
      ensures !loading && storage == old(storage)
      ensures TruthyString(StoredToken(storage)) ==> isAuthenticated && jwtToken == StoredToken(storage)
      ensures !TruthyString(StoredToken(storage)) ==> isAuthenticated == old(isAuthenticated) && jwtToken == old(jwtToken)
    {
      var token := StoredToken(storage);
      if TruthyString(token) {
        isAuthenticated := true;
        jwtToken := token;
      }
      loading := false;
    }

    /** The render gate: the placeholder while loading, the children otherwise. */
    function Rendered(): (v: View)
      reads this
      ensures v == Placeholder <==> loading
    {
      Render(State())
    }
  }
}
