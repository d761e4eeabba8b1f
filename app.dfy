/**
 * The route table: five public pages, two role-guarded subtrees with their
 * own nested routes and catch-all redirects, and a not-found page for
 * everything else. Paths arrive already split into segments.
 */
module App {
  import opened Wrappers
  import opened AuthContext
  import opened ProtectedRoute

  datatype Page =
    | LandingPage | AboutPage | ContactPage | LoginPage | RegisterPage
    | SeekerDashboard | PropertyDetailsPage(id: string) | OwnerDashboard
    | NotFoundPage

  /** What the router shows for a location: a page, the guard's spinner, or a replacing navigation. */
  datatype View = Render(page: Page) | Spinner | Navigate(to: Path)

  /** What the guard reads from the session store. */
  datatype Session = Session(loading: bool, isAuthenticated: bool, userType: UserType)

  /** The snapshot of a provider that `useAuth` hands to the guard. */
  function SessionOf(auth: AuthProvider): (s: Session)
    reads auth
    ensures s.loading == auth.loading
    ensures s.isAuthenticated <==> auth.user.Some?
    ensures s.userType == (if auth.user.Some? then auth.user.value.userType else None)
  {
    Session(auth.loading, auth.IsAuthenticated(), auth.CurrentUserType())
  }

  /** `<ProtectedRoute userType={required}>`: the nested view is reached only when the guard allows. */
  function Guarded(s: Session, required: Role, nested: View): (v: View)
    ensures Admits(s, required) ==> v == nested
    ensures !Admits(s, required) ==> v == Spinner || v.Navigate?
  {
    match Guard(s.loading, s.isAuthenticated, s.userType, Some(required))
    case Pending => Spinner
    case RedirectTo(p) => Navigate(p)
    case Allow => nested
  }

  /** The routes nested under the `seeker` prefix: a seeker page, or the redirect to the seeker dashboard. */
  function SeekerRoutes(rest: Path): (v: View)
    ensures v.Render? ==> v.page == SeekerDashboard || v.page.PropertyDetailsPage?
    ensures v.Navigate? ==> v.to == DashboardPath(Some(Seeker))
    ensures v.Render? || v.Navigate?
  {
    if rest == ["dashboard"] then Render(SeekerDashboard)
    else if |rest| == 2 && rest[0] == "property" && rest[1] != "" then Render(PropertyDetailsPage(rest[1]))
    else Navigate(["seeker", "dashboard"])
  }

  /** The routes nested under the `owner` prefix: the owner dashboard, or the redirect to it. */
  function OwnerRoutes(rest: Path): (v: View)
    ensures v == Render(OwnerDashboard) || v == Navigate(DashboardPath(Some(Owner)))
  {
    if rest == ["dashboard"] then Render(OwnerDashboard)
    else Navigate(["owner", "dashboard"])
  }

  /**
   * The whole table. react-router picks the most specific route rather than
   * the first; for this table no two routes match the same path except the
   * wildcard, so testing the routes in turn gives the same result.
   * Only the two guarded subtrees can wait or redirect.
   */
  function Resolve(path: Path, s: Session): (v: View)
    ensures (v == Spinner || v.Navigate?) ==> |path| >= 1 && (path[0] == "seeker" || path[0] == "owner")
  {
    if path == [] then Render(LandingPage)
    else if path == ["about"] then Render(AboutPage)
    else if path == ["contact"] then Render(ContactPage)
    else if path == ["login"] then Render(LoginPage)
    else if path == ["register"] then Render(RegisterPage)
    else if path[0] == "seeker" then Guarded(s, Seeker, SeekerRoutes(path[1..]))
    else if path[0] == "owner" then Guarded(s, Owner, OwnerRoutes(path[1..]))
    else Render(NotFoundPage)
  }

  /** A session the guard lets into the subtree for `r`. */
  predicate Admits(s: Session, r: Role)
  {
    !s.loading && s.isAuthenticated && s.userType == Some(r)
  }

  /** The public pages render for every session, with no guard. */
  lemma PublicPages(s: Session)
    ensures Resolve([], s) == Render(LandingPage)
    ensures Resolve(["about"], s) == Render(AboutPage)
    ensures Resolve(["contact"], s) == Render(ContactPage)
    ensures Resolve(["login"], s) == Render(LoginPage)
    ensures Resolve(["register"], s) == Render(RegisterPage)
  {
  }

  /** Every path outside the public pages and the two subtrees shows the not-found page, for every session. */
  lemma UnmatchedPathsNotFound(path: Path, s: Session)
    requires path != [] && path[0] != "seeker" && path[0] != "owner"
    requires path !in {["about"], ["contact"], ["login"], ["register"]}
    ensures Resolve(path, s) == Render(NotFoundPage)
  {
  }

  /** The footer's extra links match no route and show the not-found page. */
  lemma FooterLinksNotFound(s: Session)
    ensures Resolve(["how-it-works"], s) == Render(NotFoundPage)
    ensures Resolve(["faqs"], s) == Render(NotFoundPage)
    ensures Resolve(["support"], s) == Render(NotFoundPage)
  {
    UnmatchedPathsNotFound(["how-it-works"], s);
    UnmatchedPathsNotFound(["faqs"], s);
    UnmatchedPathsNotFound(["support"], s);
  }

  /** Inside the seeker subtree, for an admitted session. */
  lemma SeekerSubtree(s: Session, rest: Path)
    requires Admits(s, Seeker)
    ensures rest == ["dashboard"] ==> Resolve(["seeker"] + rest, s) == Render(SeekerDashboard)
    ensures |rest| == 2 && rest[0] == "property" && rest[1] != ""
        ==> Resolve(["seeker"] + rest, s) == Render(PropertyDetailsPage(rest[1]))
    ensures rest != ["dashboard"] && !(|rest| == 2 && rest[0] == "property" && rest[1] != "")
        ==> Resolve(["seeker"] + rest, s) == Navigate(["seeker", "dashboard"])
  {
    assert (["seeker"] + rest)[0] == "seeker" && (["seeker"] + rest)[1..] == rest;
  }

  /** Inside the owner subtree, for an admitted session. */
  lemma OwnerSubtree(s: Session, rest: Path)
    requires Admits(s, Owner)
    ensures rest == ["dashboard"] ==> Resolve(["owner"] + rest, s) == Render(OwnerDashboard)
    ensures rest != ["dashboard"] ==> Resolve(["owner"] + rest, s) == Navigate(["owner", "dashboard"])
  {
    assert (["owner"] + rest)[0] == "owner" && (["owner"] + rest)[1..] == rest;
  }

  /**
   * The guard decides before the nested routes are consulted: a session the
   * guard does not admit gets the same view for every path in the subtree.
   */
  lemma GuardBeforeNested(s: Session, r: Role, rest1: Path, rest2: Path)
    requires !Admits(s, r)
    ensures Resolve([RoleName(r)] + rest1, s) == Resolve([RoleName(r)] + rest2, s)
  {
    assert ([RoleName(r)] + rest1)[0] == RoleName(r) && ([RoleName(r)] + rest1)[1..] == rest1;
    assert ([RoleName(r)] + rest2)[0] == RoleName(r) && ([RoleName(r)] + rest2)[1..] == rest2;
  }

  /** A loaded, unauthenticated visitor to either subtree is sent to `/login`. */
  lemma StrangerSentToLogin(s: Session, path: Path)
    requires !s.loading && !s.isAuthenticated
    requires |path| >= 1 && (path[0] == "seeker" || path[0] == "owner")
    ensures Resolve(path, s) == Navigate(["login"])
  {
  }

  /** Every path that renders the seeker subtree's pages starts with `seeker`, and only admitted sessions see them. */
  lemma SeekerPagesNeedSeeker(path: Path, s: Session)
    requires Resolve(path, s).Render?
    requires Resolve(path, s).page == SeekerDashboard || Resolve(path, s).page.PropertyDetailsPage?
    ensures path[0] == "seeker" && Admits(s, Seeker)
  {
    assert path != [];
    assert OwnerRoutes(path[1..]).Render? ==> OwnerRoutes(path[1..]).page == OwnerDashboard;
    assert Guard(s.loading, s.isAuthenticated, s.userType, Some(Seeker)) == Allow;
    AllowIff(s.loading, s.isAuthenticated, s.userType, Some(Seeker));
  }

  /** The owner dashboard is shown only under `owner`, to admitted owners. */
  lemma OwnerPageNeedsOwner(path: Path, s: Session)
    requires Resolve(path, s) == Render(OwnerDashboard)
    ensures path[0] == "owner" && Admits(s, Owner)
  {
    assert path != [];
    assert SeekerRoutes(path[1..]).Render? ==> SeekerRoutes(path[1..]).page != OwnerDashboard;
    assert Guard(s.loading, s.isAuthenticated, s.userType, Some(Owner)) == Allow;
    AllowIff(s.loading, s.isAuthenticated, s.userType, Some(Owner));
  }

  /**
   * Redirects settle in one step: wherever the table sends a session, the
   * target renders a page for that same session (no chains, no loops).
   */
  lemma RedirectsSettle(path: Path, s: Session)
    requires Resolve(path, s).Navigate?
    ensures Resolve(Resolve(path, s).to, s).Render?
  {
    var to := Resolve(path, s).to;
    assert !s.loading;
    if to != LoginPath {
      assert |to| == 2 && to[1] == "dashboard";
      assert to[0] == "seeker" || to[0] == "owner" || to[0] == "null";
    }
  }

  /** The subtree catch-all targets are fixpoints for admitted sessions. */
  lemma DashboardsAreFixpoints(s: Session, r: Role)
    requires Admits(s, r)
    ensures Resolve(DashboardPath(Some(r)), s) == Render(if r == Seeker then SeekerDashboard else OwnerDashboard)
  {
  }

  /** A dashboard card's link `/seeker/property/${id}` opens the details page for that id. */
  lemma PropertyLinkResolves(s: Session, id: string)
    requires Admits(s, Seeker) && id != ""
    ensures Resolve(["seeker", "property", id], s) == Render(PropertyDetailsPage(id))
  {
    assert ["seeker", "property", id][1..] == ["property", id];
  }
}
