/** The access gate around protected pages (components/protected-route.tsx):
    once the session check is over, an ordered chain of checks on the signed-in
    user picks at most one redirect; independently, the page renders a spinner
    while loading, nothing without a user, and its children otherwise. The
    permission check is the session context's hasPermission. */
module ProtectedRoute {
  import opened Common
  import SessionContext

  /** The optional requirements a page declares. An absent or empty one is not checked. */
  datatype Requirements = Requirements(role: Option<string>, permission: Option<string>, adminLevel: Option<string>)

  const NONE_REQUIRED: Requirements := Requirements(None, None, None)

  /** The redirect the effect issues, if any. */
  function Redirect(isLoading: bool, user: Option<User>, req: Requirements): (target: Option<string>)
    ensures isLoading ==> target == None
    ensures !isLoading && user.None? ==> target == Some("/login")
  {
    if isLoading then None
    else if user.None? then Some("/login")
    else
      var u := user.value;
      if Present(req.role) && u.role != req.role.value then
        Some(if u.role == ADMIN then "/dashboard/admin" else "/dashboard")
      else if Present(req.adminLevel) && u.adminLevel != Some(req.adminLevel.value) then
        Some("/dashboard")
      else if Present(req.permission) && !SessionContext.HasPermission(user, req.permission.value, "READ", None) then
        Some("/dashboard/unauthorized")
      else None
  }

  /** The user meets each requirement the page declares. */
  predicate Meets(u: User, req: Requirements) {
    && (Present(req.role) ==> u.role == req.role.value)
    && (Present(req.adminLevel) ==> u.adminLevel == Some(req.adminLevel.value))
    && (Present(req.permission) ==> u.adminLevel == Some(SUPER_ADMIN))
  }

  /** No redirect happens exactly while loading or when a signed-in user meets
      every requirement; the permission requirement is met exactly by a
      SUPER_ADMIN, whatever permission is named. */
  lemma NoRedirectIffAdmitted(isLoading: bool, user: Option<User>, req: Requirements)
    ensures Redirect(isLoading, user, req) == None <==> isLoading || (user.Some? && Meets(user.value, req))
  {
  }

  /** Every redirect leads to one of four pages. */
  lemma RedirectTargets(isLoading: bool, user: Option<User>, req: Requirements)
    ensures Redirect(isLoading, user, req) in {None, Some("/login"), Some("/dashboard/admin"), Some("/dashboard"),
                                               Some("/dashboard/unauthorized")}
  {
  }

  /** The role is checked first: a role mismatch decides the target whatever
      the admin level and permission requirements are. */
  lemma RoleCheckedFirst(user: User, req: Requirements)
    requires Present(req.role) && user.role != req.role.value
    ensures Redirect(false, Some(user), req) == Some(if user.role == ADMIN then "/dashboard/admin" else "/dashboard")
    ensures forall level, perm :: Redirect(false, Some(user), req.(adminLevel := level, permission := perm))
                                  == Redirect(false, Some(user), req)
  {
  }

  /** The admin level is checked only once the role passes: a level mismatch
      sends the user to /dashboard whatever permission is required. */
  lemma AdminLevelCheckedSecond(user: User, req: Requirements)
    requires !Present(req.role) || user.role == req.role.value
    requires Present(req.adminLevel) && user.adminLevel != Some(req.adminLevel.value)
    ensures forall perm :: Redirect(false, Some(user), req.(permission := perm)) == Some("/dashboard")
  {
  }

  /** The permission is checked last: when role and level pass, a required
      permission redirects to /dashboard/unauthorized exactly for users who
      are not SUPER_ADMIN. */
  lemma PermissionCheckedLast(user: User, req: Requirements)
    requires !Present(req.role) || user.role == req.role.value
    requires !Present(req.adminLevel) || user.adminLevel == Some(req.adminLevel.value)
    requires Present(req.permission)
    ensures Redirect(false, Some(user), req) == Some("/dashboard/unauthorized") <==> user.adminLevel != Some(SUPER_ADMIN)
    ensures Redirect(false, Some(user), req) == None <==> user.adminLevel == Some(SUPER_ADMIN)
  {
  }

  /** A page with no requirements never redirects a signed-in user. */
  lemma NoRequirementsNoRedirect(isLoading: bool, user: User)
    ensures Redirect(isLoading, Some(user), NONE_REQUIRED) == None
  {
  }

  datatype View = Spinner | Nothing | Children

  /** What the component renders; it looks at the loading flag and the user only. */
  function Render(isLoading: bool, user: Option<User>): (v: View)
    ensures v == Spinner <==> isLoading
    ensures v == Children <==> !isLoading && user.Some?
  {
    if isLoading then Spinner else if user.None? then Nothing else Children
  }

  /** The gate is the redirect only: a signed-in user who fails a requirement
      is redirected, yet the children are rendered all the same. */
  lemma ChildrenRenderDespiteRedirect(user: User, req: Requirements)
    requires !Meets(user, req)
    ensures Redirect(false, Some(user), req).Some?
    ensures Render(false, Some(user)) == Children
  {
    NoRedirectIffAdmitted(false, Some(user), req);
  }

  /** Without a user nothing protected is shown: the spinner while loading,
      and afterwards nothing, together with the redirect to /login. */
  lemma NoUserNoChildren(isLoading: bool, req: Requirements)
    ensures Render(isLoading, None) != Children
    ensures !isLoading ==> Redirect(isLoading, None, req) == Some("/login")
  {
  }
}
