/** The navigation bar: which links it shows for the signed-in user's role,
    and the name it greets the user by. */
module Navbar {
  import opened Optional
  import opened Text

  /** The signed-in user as the auth context exposes it; a missing field
      is "". */
  datatype User = User(name: string, email: string, role: string)

  const AdminRole := "admin"

  /** `user?.role === "admin"`: false when there is no user. */
  predicate IsAdmin(user: Option<User>)
  {
    user.Some? && user.value.role == AdminRole
  }

  /** The Courts link: for visitors and for signed-in non-administrators. */
  predicate ShowsCourts(isAuthenticated: bool, user: Option<User>)
  {
    !isAuthenticated || !IsAdmin(user)
  }

  /** The My Bookings link: for signed-in non-administrators. */
  predicate ShowsMyBookings(isAuthenticated: bool, user: Option<User>)
  {
    isAuthenticated && !IsAdmin(user)
  }

  /** The Admin Dashboard link: for signed-in administrators. */
  predicate ShowsAdminDashboard(isAuthenticated: bool, user: Option<User>)
  {
    isAuthenticated && IsAdmin(user)
  }

  /** The greeting, the role line and Logout: for signed-in users. */
  predicate ShowsAccountArea(isAuthenticated: bool)
  {
    isAuthenticated
  }

  /** Login and Sign Up: for visitors. */
  predicate ShowsLoginAndSignUp(isAuthenticated: bool)
  {
    !isAuthenticated
  }

  /** The role line under the greeting: when the user has a role. */
  predicate ShowsRole(isAuthenticated: bool, user: Option<User>)
  {
    isAuthenticated && user.Some? && user.value.role != ""
  }

  /** A signed-in user sees exactly one of My Bookings and Admin
      Dashboard, administrators the second; a visitor sees neither. The
      Courts link is shown exactly when Admin Dashboard is not. Logout and
      Login/Sign Up exclude each other, and one of them is always there. */
  lemma LinkRules(isAuthenticated: bool, user: Option<User>)
    ensures isAuthenticated ==>
              (ShowsMyBookings(isAuthenticated, user) != ShowsAdminDashboard(isAuthenticated, user))
    ensures isAuthenticated ==> (ShowsAdminDashboard(isAuthenticated, user) <==> IsAdmin(user))
    ensures !isAuthenticated ==>
              !ShowsMyBookings(isAuthenticated, user) && !ShowsAdminDashboard(isAuthenticated, user)
    ensures ShowsCourts(isAuthenticated, user) <==> !ShowsAdminDashboard(isAuthenticated, user)
    ensures ShowsAccountArea(isAuthenticated) != ShowsLoginAndSignUp(isAuthenticated)
    ensures ShowsRole(isAuthenticated, user) ==> ShowsAccountArea(isAuthenticated)
  {
  }

  /** `user?.name || user?.email?.split("@")[0] || "User"`. */
  function GreetingName(user: Option<User>): (r: string)
    ensures r != ""
    ensures user.Some? && user.value.name != "" ==> r == user.value.name
    ensures (user.None? || user.value.name == "") && r != "User" ==>
              user.Some? && r <= user.value.email && '@' !in r &&
              (|r| < |user.value.email| ==> user.value.email[|r|] == '@')
  {
    if user.Some? && user.value.name != "" then user.value.name
    else if user.Some? && BeforeFirst(user.value.email, '@') != "" then BeforeFirst(user.value.email, '@')
    else "User"
  }

  /** Without a name, a user whose email starts with a local part is
      greeted by that local part: everything before the first "@". */
  lemma GreetsByLocalPart(u: User, k: nat)
    requires u.name == "" && 0 < k <= |u.email| && '@' !in u.email[..k]
    requires k == |u.email| || u.email[k] == '@'
    ensures GreetingName(Some(u)) == u.email[..k]
  {
    BeforeFirstAt(u.email, '@', k);
  }

  /** A user with neither a name nor text before the "@" of their email
      is greeted as "User". */
  lemma GreetsAsUserOtherwise(u: User)
    requires u.name == "" && (u.email == "" || u.email[0] == '@')
    ensures GreetingName(Some(u)) == "User"
  {
  }
}
