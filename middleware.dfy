/**
 * The route-access middleware (middleware.ts): from the requested path and
 * the role in the session token, either let the request through or
 * redirect it. `config.matcher` decides which paths reach it at all.
 *
 * The token's role is kept as the raw string it carries, so a token with a
 * role outside the four is covered too.
 */
module Middleware {
  import opened Common
  import opened Strings

  datatype Decision = Next | Redirect(target: string)

  /** The dashboard `/` sends each role to. */
  function Home(role: Role): string
  {
    match role
    case ADMIN => "/admin"
    case TEACHER => "/teacher"
    case STUDENT => "/student"
    case PARENT => "/parent"
  }

  predicate IsPublic(pathname: string)
  {
    StartsWith(pathname, "/login") || StartsWith(pathname, "/register")
  }

  /** The protected area a path falls in, by the same prefix tests, in the same order. */
  function AreaOf(pathname: string): (r: Option<Role>)
    ensures r.Some? ==> StartsWith(pathname, Home(r.value))
    ensures r.None? ==> forall role :: !StartsWith(pathname, Home(role))
  {
    if StartsWith(pathname, "/admin") then Some(ADMIN)
    else if StartsWith(pathname, "/teacher") then Some(TEACHER)
    else if StartsWith(pathname, "/student") then Some(STUDENT)
    else if StartsWith(pathname, "/parent") then Some(PARENT)
    else None
  }

  /** `middleware`; `token` is the role string of the session token, if there is one. */
  function Decide(pathname: string, token: Option<string>): (d: Decision)
    ensures d.Redirect? ==> d.target in {"/login", "/", "/admin", "/teacher", "/student", "/parent"}
    ensures IsPublic(pathname) ==> d == Next
    ensures !IsPublic(pathname) && token.None? ==> d == Redirect("/login")
  {
    if IsPublic(pathname) then Next
    else if token.None? then Redirect("/login")
    else
      var role := ParseRole(token.value);
      if pathname == "/" && role.Some? then Redirect(Home(role.value))
      else
        match AreaOf(pathname)
        case Some(area) => if role != Some(area) then Redirect("/") else Next
        case None => Next
  }

  /** `/` sends each role to its own dashboard. */
  lemma RootGoesHome(role: Role)
    ensures Decide("/", Some(RoleName(role))) == Redirect(Home(role))
  {
    assert !StartsWith("/", "/login") && !StartsWith("/", "/register");
  }

  /** A protected area turns away every other role, and an unknown role, back to `/`. */
  lemma AreaTurnsAwayOthers(pathname: string, token: string, area: Role)
    requires !IsPublic(pathname) && pathname != "/"
    requires StartsWith(pathname, Home(area))
    requires ParseRole(token) != Some(area)
    ensures Decide(pathname, Some(token)) == Redirect("/")
  {
    assert AreaOf(pathname) == Some(area) by {
      assert pathname[..|Home(area)|] == Home(area);
      assert pathname[1] == Home(area)[1];
    }
  }

  /**
   * A session inside its own area, or on any path outside the four areas, is
   * let through; so is a session whose role is none of the four, on `/` too.
   */
  lemma OwnAreaPasses(pathname: string, token: string)
    requires pathname != "/" || ParseRole(token).None?
    requires AreaOf(pathname).None? || AreaOf(pathname) == ParseRole(token)
    ensures Decide(pathname, Some(token)) == Next
  {
  }

  /** The area test is a prefix test: `/administrator` is in the admin area. */
  lemma AdministratorIsAdminArea()
    ensures Decide("/administrator", Some("TEACHER")) == Redirect("/")
    ensures Decide("/administrator", Some("ADMIN")) == Next
  {
    assert StartsWith("/administrator", "/admin");
    assert !StartsWith("/administrator", "/login") && !StartsWith("/administrator", "/register");
  }

  /** Following a redirect reaches a page that is let through in at most one more redirect. */
  lemma RedirectsSettle(pathname: string, token: Option<string>)
    requires Decide(pathname, token).Redirect?
    ensures var first := Decide(pathname, token).target;
            || Decide(first, token) == Next
            || (Decide(first, token).Redirect? && Decide(Decide(first, token).target, token) == Next)
  {
    var first := Decide(pathname, token).target;
    assert StartsWith("/login", "/login");
    assert !IsPublic("/") && AreaOf("/") == None;
    if token.Some? {
      var role := ParseRole(token.value);
      if role.Some? {
        var home := Home(role.value);
        assert !IsPublic(home) && AreaOf(home) == role by {
          assert StartsWith(home, home);
          assert home[1] != 'l' && home[1] != 'r';
        }
        assert home != "/";
      }
      if first != "/login" && first != "/" {
        assert role.Some? && first == Home(role.value);
      }
    }
  }

  /** `config.matcher`: `/`, and each area's root with any number of further segments. */
  predicate MatcherCovers(pathname: string)
  {
    || pathname == "/"
    || exists role :: pathname == Home(role) || StartsWith(pathname, Home(role) + "/")
  }

  /** What a request meets: paths outside the matcher are never intercepted. */
  function Route(pathname: string, token: Option<string>): (d: Decision)
    ensures !MatcherCovers(pathname) ==> d == Next
    ensures MatcherCovers(pathname) ==> d == Decide(pathname, token)
  {
    if MatcherCovers(pathname) then Decide(pathname, token) else Next
  }

  /**
   * Through the matcher the area test becomes exact: `/administrator` is not
   * intercepted at all, so no role is turned away from it.
   */
  lemma MatcherMakesAreasExact(token: Option<string>)
    ensures !MatcherCovers("/administrator")
    ensures Route("/administrator", token) == Next
  {
    forall role
      ensures "/administrator" != Home(role) && !StartsWith("/administrator", Home(role) + "/")
    {
      var prefix := Home(role) + "/";
      var k := if role == ADMIN then 6 else 1;
      assert k < |prefix| && "/administrator"[k] != prefix[k];
    }
  }

  /** Without a session, every intercepted page but the public ones sends the visitor to `/login`. */
  lemma NoSessionMeansLogin(pathname: string)
    requires MatcherCovers(pathname)
    ensures Route(pathname, None) == Redirect("/login")
  {
    if pathname != "/" {
      var role :| pathname == Home(role) || StartsWith(pathname, Home(role) + "/");
      assert pathname[1] == Home(role)[1];
      assert pathname[1] != 'l' && pathname[1] != 'r';
    }
  }
}
