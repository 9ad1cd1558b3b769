/**
 * The two route guards: src/protected-route/protected-route.jsx decides on the user and an
 * optional required role, src/protected-route/protected-route.js on a loading flag and the user.
 */
module ProtectedRoute {
  import opened Js
  import opened Wrappers
  import AuthContext

  datatype Decision = Children | Redirect(to: string, replace: bool) | LoadingPlaceholder

  /** protected-route.jsx: `<ProtectedRoute requiredRole=...>` */
  function RoleGuard(user: Value, requiredRole: Value): (r: Decision)
    ensures r == Redirect("/", true) <==> !Truthy(user)
    ensures r == Redirect("/unauthorized", true) <==>
      Truthy(user) && Truthy(requiredRole) && Member(user, "role") != requiredRole
    ensures r == Children <==> Truthy(user) && (!Truthy(requiredRole) || Member(user, "role") == requiredRole)
    ensures !r.LoadingPlaceholder?
  {
    if !Truthy(user) then Redirect("/", true)
    else if Truthy(requiredRole) && Member(user, "role") != requiredRole then Redirect("/unauthorized", true)
    else Children
  }

  /** protected-route.js: reads `loading` and `user` from the auth context. */
  function LoadingGuard(context: Value): (r: Decision)
    ensures r == LoadingPlaceholder <==> Truthy(Member(context, "loading"))
    ensures r == Children <==> !Truthy(Member(context, "loading")) && Truthy(Member(context, "user"))
    ensures r == Redirect("/login", false) <==> !Truthy(Member(context, "loading")) && !Truthy(Member(context, "user"))
  {
    if Truthy(Member(context, "loading")) then LoadingPlaceholder
    else if Truthy(Member(context, "user")) then Children
    else Redirect("/login", false)
  }

  /** Without a required role, any logged-in user gets through, whatever the role. */
  lemma NoRoleAdmitsAnyUser(user: Value)
    requires Truthy(user)
    ensures RoleGuard(user, Undefined) == Children
  {
  }

  /**
   * The provider's value has no `loading` field, so protected-route.js never shows its
   * placeholder: it admits exactly the logged-in users and otherwise redirects to /login.
   */
  lemma ProviderNeverLoading(user: Value, token: Option<string>, isAuthenticated: bool, error: Value)
    ensures var ctx := AuthContext.ContextObject(user, token, isAuthenticated, error);
      && LoadingGuard(ctx) != LoadingPlaceholder
      && (LoadingGuard(ctx) == Children <==> Truthy(user))
  {
  }

  /** The two guards agree on who is admitted when no role is required, but redirect elsewhere. */
  lemma GuardsAgreeWithoutRole(user: Value, token: Option<string>, isAuthenticated: bool, error: Value)
    ensures var ctx := AuthContext.ContextObject(user, token, isAuthenticated, error);
      && (RoleGuard(user, Undefined) == Children <==> LoadingGuard(ctx) == Children)
      && (!Truthy(user) ==> RoleGuard(user, Undefined).to == "/" && LoadingGuard(ctx).to == "/login")
  {
  }
}
