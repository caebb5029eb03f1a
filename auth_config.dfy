// auth.config.ts: the route guard and the two callbacks that carry the
// user's id and role from the sign-in result into the JWT and from the JWT
// into the session.

module AuthConfig {
  import opened Wrappers
  import opened Text

  /** What the `authorized` callback answers: let the request through, refuse
      it (the framework then sends the visitor to the sign-in page), or
      redirect it elsewhere. */
  datatype Decision = Allow | Deny | Redirect(location: string)

  /** `authorized`: the intake page is public; every other path under `/`
      except the sign-in page needs a signed-in user; a signed-in user who
      opens the sign-in page is sent to the root. */
  function Authorized(isLoggedIn: bool, pathname: string): (d: Decision)
    ensures StartsWith(pathname, "/visitor-intake") ==> d == Allow
    ensures d == Deny <==> !isLoggedIn && StartsWith(pathname, "/") && !StartsWith(pathname, "/login") && !StartsWith(pathname, "/visitor-intake")
    ensures d.Redirect? <==> isLoggedIn && StartsWith(pathname, "/login")
    ensures d.Redirect? ==> d.location == "/"
  {
    if StartsWith(pathname, "/visitor-intake") then
      assert pathname[1] == 'v';
      Allow
    else if StartsWith(pathname, "/") && !StartsWith(pathname, "/login") then
      (if isLoggedIn then Allow else Deny)
    else if isLoggedIn && StartsWith(pathname, "/login") then Redirect("/")
    else Allow
  }

  /** Signing in lifts every refusal: a path refused to a visitor is open to a user. */
  lemma SignInLiftsDenial(pathname: string)
    requires Authorized(false, pathname) == Deny
    ensures Authorized(true, pathname) == Allow
  {
  }

  /** A signed-in user is never refused, and a visitor is never redirected. */
  lemma NoDenialWhenSignedIn(pathname: string)
    ensures Authorized(true, pathname) != Deny
    ensures !Authorized(false, pathname).Redirect?
  {
  }

  /** The sign-in page itself is open to a visitor, so the refusal's
      redirect to it cannot loop. */
  lemma SignInPageOpen(pathname: string)
    requires StartsWith(pathname, "/login")
    ensures Authorized(false, pathname) == Allow
  {
    assert pathname[1] == 'l';
  }

  /** A JavaScript value's truthiness for an optional string. */
  predicate Truthy(v: Option<string>) {
    v.Some? && v.value != ""
  }

  /** The user record the sign-in provider returns. */
  datatype AuthUser = AuthUser(id: Option<string>, role: Option<string>)

  /** The JWT's claims that the callbacks read and write. */
  class Token {
    var id: Option<string>
    var role: Option<string>

    constructor (id: Option<string>, role: Option<string>)
      ensures this.id == id && this.role == role
    {
      this.id := id;
      this.role := role;
    }
  }

  class SessionUser {
    var id: Option<string>
    var role: Option<string>

    constructor (id: Option<string>, role: Option<string>)
      ensures this.id == id && this.role == role
    {
      this.id := id;
      this.role := role;
    }
  }

  class Session {
    const user: SessionUser

    constructor (user: SessionUser)
      ensures this.user == user
    {
      this.user := user;
    }
  }

  /** `jwt`: on sign-in (a user is present) both claims are overwritten by
      the user's, absent values included; otherwise the token is unchanged. */
  method Jwt(token: Token, user: Option<AuthUser>) returns (r: Token)
    modifies token
    ensures r == token
    ensures user.Some? ==> token.id == user.value.id && token.role == user.value.role
    ensures user.None? ==> token.id == old(token.id) && token.role == old(token.role)
  {
    if user.Some? {
      token.id := user.value.id;
      token.role := user.value.role;
    }
    r := token;
  }

  /** `session`: each claim the token holds with a truthy value is copied
      onto the session's user; the others are left as they were. A null
      token copies nothing. */
  method SessionCallback(session: Session, token: Token?) returns (r: Session)
    modifies session.user
    ensures r == session
    ensures token != null && Truthy(token.id) ==> session.user.id == token.id
    ensures !(token != null && Truthy(token.id)) ==> session.user.id == old(session.user.id)
    ensures token != null && Truthy(token.role) ==> session.user.role == token.role
    ensures !(token != null && Truthy(token.role)) ==> session.user.role == old(session.user.role)
  {
    if token != null && Truthy(token.id) {
      session.user.id := token.id;
    }
    if token != null && Truthy(token.role) {
      session.user.role := token.role;
    }
    r := session;
  }

  /** A sign-in followed by a session read: the session's user ends up with
      the signed-in user's id and role whenever those are non-empty. */
  method SignInThenRead(user: AuthUser, token: Token, session: Session)
    modifies token, session.user
    ensures Truthy(user.id) ==> session.user.id == user.id
    ensures Truthy(user.role) ==> session.user.role == user.role
    ensures !Truthy(user.id) ==> session.user.id == old(session.user.id)
    ensures !Truthy(user.role) ==> session.user.role == old(session.user.role)
  {
    var t := Jwt(token, Some(user));
    var s := SessionCallback(session, t);
  }
}
