/**
  * The authentication store: the signed-in user, the session token, whether the session is
  * authenticated, and whether a login or registration request is in flight. `login` and
  * `register` run in two phases around the request to the server; the request's result is an
  * input of the second phase.
  */
module AuthStore {
  import opened Wrappers

  datatype AuthUser = AuthUser(id: string, email: string, name: string, avatar: Option<string>)

  /** What the server answers to a successful login or registration. */
  datatype AuthResponse = AuthResponse(user: AuthUser, token: string)

  /** The error the request was rejected with; the store passes it on unchanged. */
  datatype RequestError = RequestError(message: string)

  /** How the login or registration request ended. */
  datatype AuthOutcome = Succeeded(response: AuthResponse) | Failed(error: RequestError)

  class Store {
    var user: Option<AuthUser>
    var token: Option<string>
    var isAuthenticated: bool
    var loading: bool

    /** The session is authenticated exactly when a user and a token are held. */
    predicate Consistent()
      reads this
    {
      isAuthenticated <==> user.Some? && token.Some?
    }

    /** No user, no token, not authenticated, not loading. */
    constructor()
      ensures user.None? && token.None? && !isAuthenticated && !loading
      ensures Consistent()
    {
      user, token, isAuthenticated, loading := None, None, false, false;
    }

    /** First phase of `login`: `loading` is set before the request is sent. */
    method BeginLogin()
      modifies this
      ensures loading
      ensures user == old(user) && token == old(token) && isAuthenticated == old(isAuthenticated)
      ensures old(Consistent()) ==> Consistent()
    {
      loading := true;
    }

    /**
      * Second phase of `login`. On success the session holds the answer's user and token, is
      * authenticated and no longer loading. On failure only `loading` is cleared and the error
      * is thrown on to the caller.
      */
    method CompleteLogin(outcome: AuthOutcome) returns (rethrown: Option<RequestError>)
      modifies this
      ensures !loading
      ensures outcome.Succeeded? ==>
        user == Some(outcome.response.user) && token == Some(outcome.response.token) && isAuthenticated &&
        rethrown == None
      ensures outcome.Failed? ==>
        user == old(user) && token == old(token) && isAuthenticated == old(isAuthenticated) &&
        rethrown == Some(outcome.error)
      ensures outcome.Succeeded? || old(Consistent()) ==> Consistent()
    {
      match outcome
      case Succeeded(response) =>
        user, token, isAuthenticated, loading := Some(response.user), Some(response.token), true, false;
        rethrown := None;
      case Failed(error) =>
        loading := false;
        rethrown := Some(error);
    }

    /** First phase of `register`: `loading` is set before the request is sent. */
    method BeginRegister()
      modifies this
      ensures loading
      ensures user == old(user) && token == old(token) && isAuthenticated == old(isAuthenticated)
      ensures old(Consistent()) ==> Consistent()
    {
      loading := true;
    }

    /** Second phase of `register`, with the same outcomes as that of `login`. */
    method CompleteRegister(outcome: AuthOutcome) returns (rethrown: Option<RequestError>)
      modifies this
      ensures !loading
      ensures outcome.Succeeded? ==>
        user == Some(outcome.response.user) && token == Some(outcome.response.token) && isAuthenticated &&
        rethrown == None
      ensures outcome.Failed? ==>
        user == old(user) && token == old(token) && isAuthenticated == old(isAuthenticated) &&
        rethrown == Some(outcome.error)
      ensures outcome.Succeeded? || old(Consistent()) ==> Consistent()
    {
      match outcome
      case Succeeded(response) =>
        user, token, isAuthenticated, loading := Some(response.user), Some(response.token), true, false;
        rethrown := None;
      case Failed(error) =>
        loading := false;
        rethrown := Some(error);
    }

    /**
      * `logout`: whether or not the server call failed (a failure is only logged), the session
      * is cleared; `loading` is not touched.
      */
    method Logout(serverCallFailed: bool)
      modifies this
      ensures user.None? && token.None? && !isAuthenticated
      ensures loading == old(loading)
      ensures Consistent()
    {
      user, token, isAuthenticated := None, None, false;
    }
  }

  /**
    * A caller's view of one session: a failed login leaves the fresh store signed out, a
    * successful one signs in, and logging out signs out again; the store stays consistent.
    */
  method SessionLifecycle(bad: RequestError, good: AuthResponse) returns (s: Store)
    ensures s.Consistent() && s.user.None? && s.token.None? && !s.isAuthenticated && !s.loading
  {
    s := new Store();
    s.BeginLogin();
    assert s.loading;
    var e := s.CompleteLogin(Failed(bad));
    assert e == Some(bad) && !s.isAuthenticated && s.token.None?;
    s.BeginLogin();
    e := s.CompleteLogin(Succeeded(good));
    assert e.None? && s.isAuthenticated && s.token == Some(good.token);
    s.Logout(true);
  }
}
