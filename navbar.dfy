/** The navigation bar: the link lists derived from the signed-in user, the
    rule that marks a link active for the current path, the role chip, and the
    mobile drawer that closes whenever the user navigates or logs out. */
module Navbar {
  import opened Common
  import opened JsText

  /** A navigation entry; `outlined` is the Sign Up button's variant. */
  datatype Link = Link(text: string, to: string, outlined: bool)

  /** The signed-in user as the bar reads it: only the role matters. */
  datatype User = User(role: Option<string>)

  /** `links`: the three lists the bar renders. */
  datatype LinkSets = LinkSets(base: seq<Link>, admin: seq<Link>, auth: seq<Link>)

  const BaseLinks := [Link("Home", "/", false), Link("Search", "/search", false)]
  const AdminLinks := [Link("Add Movie", "/admin/add", false), Link("Manage", "/admin/manage", false)]
  const AuthLinks := [Link("Login", "/login", false), Link("Sign Up", "/signup", true)]

  predicate IsAdmin(user: Option<User>) {
    user.Some? && user.value.role == Some("admin")
  }

  /** `links`: Home and Search always; the admin pages exactly for an admin;
      Login and Sign Up exactly when nobody is signed in. */
  function Links(user: Option<User>): (r: LinkSets)
    ensures r.base == BaseLinks
    ensures r.admin == (if IsAdmin(user) then AdminLinks else [])
    ensures r.auth == (if user.None? then AuthLinks else [])
    ensures r.admin != [] <==> IsAdmin(user)
    ensures r.auth != [] <==> user.None?
  {
    LinkSets(BaseLinks, if IsAdmin(user) then AdminLinks else [], if user.None? then AuthLinks else [])
  }

  /** The admin links and the sign-in links are never shown together. */
  lemma AdminAndAuthExclusive(user: Option<User>)
    ensures Links(user).admin == [] || Links(user).auth == []
  {
  }

  /** `isActive(path)`: the root is active only on the root itself; any other
      link is active on every path that starts with it. */
  predicate IsActive(pathname: string, path: string): (b: bool)
    ensures path == "/" ==> (b <==> pathname == "/")
    ensures path != "/" ==> (b <==> |path| <= |pathname| && pathname[..|path|] == path)
    ensures pathname == path ==> b
  {
    if path == "/" then pathname == "/" else path <= pathname
  }

  /** When neither of two texts is a prefix of the other, no text starts with
      both. */
  lemma PrefixesOfOneText(p: string, a: string, b: string)
    requires a <= p && b <= p
    ensures a <= b || b <= a
  {
    if |a| <= |b| {
      assert a == p[..|a|] && b[..|a|] == p[..|a|];
    } else {
      assert b == p[..|b|] && a[..|b|] == p[..|b|];
    }
  }

  /** Every link the bar can show. */
  function AllLinks(): (r: seq<Link>)
    ensures |r| == 6
    ensures forall user, l :: l in Links(user).base + Links(user).admin + Links(user).auth ==> l in r
  {
    BaseLinks + AdminLinks + AuthLinks
  }

  /** Two texts that differ at a position both have are not prefixes of each
      other. */
  lemma Diverging(a: string, b: string, k: nat)
    requires k < |a| && k < |b| && a[k] != b[k]
    ensures !(a <= b) && !(b <= a)
  {
  }

  /** Whatever the path, at most one of the bar's links is active, so at most
      one entry is highlighted. */
  lemma {:induction false} AtMostOneActive(pathname: string, x: Link, y: Link)
    requires x in AllLinks() && y in AllLinks() && x.to != y.to
    ensures !(IsActive(pathname, x.to) && IsActive(pathname, y.to))
  {
    var a, b := x.to, y.to;
    if IsActive(pathname, a) && IsActive(pathname, b) {
      if a != "/" && b != "/" {
        PrefixesOfOneText(pathname, a, b);
        if a[1] != b[1] {
          Diverging(a, b, 1);
        } else if a[2] != b[2] {
          Diverging(a, b, 2);
        } else {
          Diverging(a, b, 7);
        }
      }
      assert false;
    }
  }

  /** The drawer's list: the base links, then the admin links. */
  function DrawerLinks(user: Option<User>): (r: seq<Link>)
    ensures r == BaseLinks + (if IsAdmin(user) then AdminLinks else [])
    ensures |r| == 4 <==> IsAdmin(user)
    ensures !IsAdmin(user) ==> |r| == 2
  {
    Links(user).base + Links(user).admin
  }

  /** The role chip: the role upper-cased, or "USER" when there is no role or it
      is empty. */
  function RoleChip(role: Option<string>): (chip: string)
    ensures chip != ""
    ensures Truthy(role) ==> chip == Upper(role.value)
    ensures !Truthy(role) ==> chip == "USER"
  {
    if role.Some? && Upper(role.value) != "" then Upper(role.value) else "USER"
  }

  /** The admin's chip reads "ADMIN". */
  lemma AdminChip()
    ensures RoleChip(Some("admin")) == "ADMIN"
  {
  }

  /** The drawer and the router location it drives. */
  class Drawer {
    var open: bool
    var pathname: string

    constructor (at: string)
      ensures !open && pathname == at
    {
      open, pathname := false, at;
    }

    /** The menu button. */
    method Show()
      modifies this
      ensures open && pathname == old(pathname)
    {
      open := true;
    }

    /** The drawer's close button, or a click outside it. */
    method Hide()
      modifies this
      ensures !open && pathname == old(pathname)
    {
      open := false;
    }

    /** `handleNav(to)`: go to `to` and close the drawer; the link followed is
        then the active one. */
    method Navigate(to: string)
      modifies this
      ensures pathname == to && !open
      ensures IsActive(pathname, to)
    {
      pathname := to;
      open := false;
    }

    /** `handleLogout`: after the auth context's logout, close the drawer and go
        to the login page. */
    method Logout()
      modifies this
      ensures pathname == "/login" && !open
      ensures IsActive(pathname, "/login")
    {
      open := false;
      pathname := "/login";
    }
  }
}
