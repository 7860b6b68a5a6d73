/**
 * The session store: who is signed in, with which token, whether as an administrator, and the
 * progress of a sign-in. The stored user (the browser's storage entry `user`) is a ghost field.
 */
module AuthSlice {
  import opened Wrappers

  /** The user record the sign-in response carries; the store reads `role` and `token`, the
      checkout page `id`, `name` and `email`. */
  datatype User = User(
    id: Option<string>, name: Option<string>, email: Option<string>, role: Option<string>,
    token: Option<string>)

  predicate IsAdminUser(u: User) {
    u.role == Some("admin")
  }

  /** `value || null` on an optional string: an empty string is falsy and becomes null. */
  function OrNull(value: Option<string>): (r: Option<string>)
    ensures r.Some? <==> value.Some? && value.value != ""
    ensures r.Some? ==> r == value
  {
    if value == Some("") then None else value
  }

  /** The session state a stored user (or none) starts the page with. */
  datatype Session = Session(user: Option<User>, token: Option<string>, isAuthenticated: bool, isAdmin: bool)

  /** The initial derivation: the stored user, its token unless empty, authenticated iff a user
      is stored, administrator iff its role is `admin`. */
  function InitialSession(saved: Option<User>): (s: Session)
    ensures s.user == saved
    ensures s.isAuthenticated <==> saved.Some?
    ensures s.isAdmin <==> saved.Some? && IsAdminUser(saved.value)
    ensures s.token.Some? <==> saved.Some? && saved.value.token.Some? && saved.value.token.value != ""
    ensures s.token.Some? ==> s.token == saved.value.token
  {
    match saved
    case None => Session(None, None, false, false)
    case Some(u) => Session(saved, OrNull(u.token), true, IsAdminUser(u))
  }

  /** Every initial session keeps an administrator signed in. */
  lemma InitialAdminIsAuthenticated(saved: Option<User>)
    ensures InitialSession(saved).isAdmin ==> InitialSession(saved).isAuthenticated
  {
  }

  class AuthStore {
    var user: Option<User>
    var token: Option<string>
    var isAuthenticated: bool
    var isAdmin: bool
    var loading: bool
    var error: Option<string>
    /** The storage entry `user`. */
    ghost var stored: Option<User>

    /** An administrator is signed in; the flags follow the user; storage holds the user. */
    ghost predicate Valid()
      reads this
    {
      && (isAdmin ==> isAuthenticated)
      && (isAuthenticated <==> user.Some?)
      && (isAdmin <==> user.Some? && IsAdminUser(user.value))
      && stored == user
    }

    constructor (saved: Option<User>)
      ensures Valid()
      ensures Session(user, token, isAuthenticated, isAdmin) == InitialSession(saved)
      ensures !loading && error == None && stored == saved
    {
      var s := InitialSession(saved);
      user, token, isAuthenticated, isAdmin := s.user, s.token, s.isAuthenticated, s.isAdmin;
      loading, error := false, None;
      stored := saved;
    }

    method LoginStart()
      requires Valid()
      modifies this`loading, this`error
      ensures Valid()
      ensures loading && error == None
    {
      loading, error := true, None;
    }

    method LoginSuccess(u: User)
      requires Valid()
      modifies this
      ensures Valid()
      ensures user == Some(u) && token == u.token && isAuthenticated
      ensures isAdmin <==> IsAdminUser(u)
      ensures !loading && error == None && stored == Some(u)
    {
      user, token, isAuthenticated, isAdmin := Some(u), u.token, true, IsAdminUser(u);
      loading, error := false, None;
      stored := Some(u);
    }

    method LoginFailure(message: Option<string>)
      requires Valid()
      modifies this`loading, this`error
      ensures Valid()
      ensures !loading && error == message
    {
      loading, error := false, message;
    }

    method Logout()
      requires Valid()
      modifies this
      ensures Valid()
      ensures user == None && token == None && !isAuthenticated && !isAdmin
      ensures !loading && error == None && stored == None
    {
      user, token, isAuthenticated, isAdmin := None, None, false, false;
      loading, error := false, None;
      stored := None;
    }

    method ClearError()
      requires Valid()
      modifies this`error
      ensures Valid()
      ensures error == None
    {
      error := None;
    }
  }
}
