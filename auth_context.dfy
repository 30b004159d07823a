/** The client-side login state of the admin (src/context/auth-context.tsx): the `user`
    and `loading` state of `AuthProvider` and the auth-token cookie it sets and deletes. */
module AuthContext {
  import opened Wrappers
  import opened Types
  import Middleware

  /** The signed-in user the context exposes. */
  datatype MockUser = MockUser(email: string, name: string)

  /** The auth-token cookie: its value and its max age in seconds. */
  datatype Cookie = Cookie(value: string, maxAge: nat)

  const OneDay: nat := 60 * 60 * 24

  /** The user the sync effect sets: the cookie's value as email, or "admin" when the
      cookie is missing or empty. */
  function SyncedUser(isAuthenticated: bool, cookie: Option<Cookie>): (u: Option<MockUser>)
    ensures u.Some? <==> isAuthenticated
    ensures u.Some? ==> u.value.name == "Admin"
    ensures u.Some? && cookie.Some? && cookie.value.value != "" ==> u.value.email == cookie.value.value
  {
    if isAuthenticated then
      Some(MockUser(if cookie.Some? && cookie.value.value != "" then cookie.value.value else "admin", "Admin"))
    else None
  }

  /** The credentials `login` compares against: the admin user given at render, or the
      fetched one when none was given. */
  function Resolve(adminUser: Option<AdminUser>, fetched: Option<AdminUser>): (r: Option<AdminUser>)
    ensures adminUser.Some? ==> r == adminUser
    ensures adminUser.None? ==> r == fetched
  {
    if adminUser.Some? then adminUser else fetched
  }

  /** `email === currentUser.email && password === currentUser.password`. */
  predicate Matches(current: Option<AdminUser>, email: string, password: string) {
    current.Some? && email == current.value.email && password == current.value.password
  }

  class AuthProvider {
    var user: Option<MockUser>
    var loading: bool
    var adminUser: Option<AdminUser>
    var cookie: Option<Cookie>

    /** The first render: no user, loading, and the admin user the layout passed in. */
    constructor (initialAdminUser: Option<AdminUser>, cookie: Option<Cookie>)
      ensures user == None && loading
      ensures adminUser == initialAdminUser && this.cookie == cookie
    {
      user := None;
      loading := true;
      adminUser := initialAdminUser;
      this.cookie := cookie;
    }

    /** The effect that runs when `isAuthenticated` changes. */
    method Sync(isAuthenticated: bool)
      modifies this
      ensures user == SyncedUser(isAuthenticated, cookie)
      ensures !loading
      ensures adminUser == old(adminUser) && cookie == old(cookie)
    {
      if isAuthenticated {
        var userEmail := if cookie.Some? && cookie.value.value != "" then cookie.value.value else "admin";
        user := Some(MockUser(userEmail, "Admin"));
      } else {
        user := None;
      }
      loading := false;
    }

    /** `login`. `fetched` is what `getAdminUser` answers, used only when no admin user was
        given at render; the answer is not kept. */
    method Login(email: string, password: string, fetched: Option<AdminUser>) returns (ok: bool)
      modifies this
      ensures ok <==> Matches(Resolve(old(adminUser), fetched), email, password)
      ensures ok ==> user == Some(MockUser(email, "Admin")) && cookie == Some(Cookie(email, OneDay))
      ensures !ok ==> user == old(user) && cookie == old(cookie)
      ensures loading == old(loading) && adminUser == old(adminUser)
    {
      var currentUser := Resolve(adminUser, fetched);
      if currentUser.None? {
        return false;
      }
      if email == currentUser.value.email && password == currentUser.value.password {
        user := Some(MockUser(email, "Admin"));
        cookie := Some(Cookie(email, OneDay));
        return true;
      }
      return false;
    }

    /** `logout`: no user and no cookie. */
    method Logout()
      modifies this
      ensures user == None && cookie == None
      ensures loading == old(loading) && adminUser == old(adminUser)
    {
      user := None;
      cookie := None;
    }
  }

  /** The cookie's value as the middleware sees it. */
  function TokenOf(cookie: Option<Cookie>): (t: Option<string>)
    ensures t.Some? <==> cookie.Some?
  {
    if cookie.Some? then Some(cookie.value.value) else None
  }

  /** A successful login opens the admin pages; a logout closes them again. */
  method LoginThenLogout(p: AuthProvider, email: string, password: string, pathname: string)
    returns (afterLogin: Middleware.Response, afterLogout: Middleware.Response)
    requires p.adminUser == Some(AdminUser(email, password))
    requires Middleware.MatcherApplies(pathname)
    modifies p
    ensures afterLogin == Middleware.Next
    ensures afterLogout == Middleware.Redirect("/login", pathname)
  {
    var ok := p.Login(email, password, None);
    afterLogin := Middleware.Handle(pathname, TokenOf(p.cookie));
    p.Logout();
    afterLogout := Middleware.Handle(pathname, TokenOf(p.cookie));
    Middleware.MatchedPathsAreAdmin(pathname);
  }

  /** A wrong password changes nothing: no user, no cookie, the gate stays closed. */
  method WrongPasswordKeepsGateClosed(p: AuthProvider, email: string, password: string, pathname: string)
    returns (response: Middleware.Response)
    requires p.adminUser.Some? && password != p.adminUser.value.password
    requires p.cookie == None && Middleware.MatcherApplies(pathname)
    modifies p
    ensures response.Redirect?
  {
    var ok := p.Login(email, password, None);
    response := Middleware.Handle(pathname, TokenOf(p.cookie));
  }
}
