/**
 * The route guard: decides, from the session store's `loading` flag and
 * user and from the capability a route requires, whether to show the
 * waiting indicator, send the visitor to the login page, refuse access or
 * render the protected content.
 */
module ProtectedRoute {
  import opened Wrappers
  import opened UserRecord
  import opened Views

  /** The capabilities a route may require. */
  datatype Role = Administrador | Desenvolvedor | Integrador

  /**
   * What the guard renders.  `Redirect` is a router `<Navigate>`; `Denied`
   * is the access-denied view, whose only action goes back in history.
   */
  datatype Decision = Waiting | Redirect(to: Navigation) | Denied | Render

  /** The roles a user's flags grant. */
  function Capabilities(u: User): set<Role> {
    (if u.administrador then {Administrador} else {}) +
    (if u.desenvolvedor then {Desenvolvedor} else {}) +
    (if u.integrador then {Integrador} else {})
  }

  /** The switch on the required role: each role reads its own flag. */
  function HasPermission(u: User, role: Role): (b: bool)
    ensures b <==> role in Capabilities(u)
  {
    match role
    case Administrador => u.administrador
    case Desenvolvedor => u.desenvolvedor
    case Integrador => u.integrador
  }

  function Guard(loading: bool, user: Option<User>, requiredRole: Option<Role>): (d: Decision)
    ensures loading ==> d == Waiting
    ensures !loading && user.None? ==> d == Redirect(ToLogin)
    ensures !loading && user.Some? && requiredRole.None? ==> d == Render
    ensures !loading && user.Some? && requiredRole.Some? ==>
      (d == Denied <==> requiredRole.value !in Capabilities(user.value)) &&
      (d == Render <==> requiredRole.value in Capabilities(user.value))
    ensures d == Denied || d == Render ==> !loading && user.Some?
  {
    if loading then Waiting
    else if user.None? then Redirect(ToLogin)
    else if requiredRole.Some? && !HasPermission(user.value, requiredRole.value) then Denied
    else Render
  }

  /** The permission for a role depends on that role's flag and on no other field. */
  lemma PermissionReadsOneFlag(u: User, w: User, role: Role)
    requires role == Administrador ==> u.administrador == w.administrador
    requires role == Desenvolvedor ==> u.desenvolvedor == w.desenvolvedor
    requires role == Integrador ==> u.integrador == w.integrador
    ensures HasPermission(u, role) == HasPermission(w, role)
  {
  }

  /** Granting a user more capabilities never turns a rendered route into a refusal. */
  lemma GuardMonotone(loading: bool, u: User, w: User, requiredRole: Option<Role>)
    requires Capabilities(u) <= Capabilities(w)
    ensures Guard(loading, Some(u), requiredRole) == Render ==> Guard(loading, Some(w), requiredRole) == Render
  {
  }
}
