/** src/middleware.ts: the route guard run before every page. */
module Middleware {
  import opened Common

  const PublicPaths: seq<string> := ["/login", "/register", "/about", "/contact"]

  datatype Decision = Next | Redirect(path: string, from: string)

  /** `middleware(request)`: public paths pass, others need the `auth` cookie to be
      exactly "true" or are sent to /login with `from` set to the requested path. */
  function Guard(pathname: string, authCookie: Option<string>): (d: Decision)
    ensures pathname in PublicPaths ==> d == Next
    ensures pathname !in PublicPaths ==> (d == Next <==> authCookie == Some("true"))
    ensures d.Redirect? ==> d.path == "/login" && d.from == pathname
  {
    if pathname in PublicPaths then Next
    else if authCookie.Some? && authCookie.value == "true" then Next
    else Redirect("/login", pathname)
  }

  /** Following a redirect never redirects again: /login is public. */
  lemma RedirectTargetIsPublic(pathname: string, cookie: Option<string>, nextCookie: Option<string>)
    ensures Guard(pathname, cookie).Redirect? ==> Guard(Guard(pathname, cookie).path, nextCookie) == Next
  {
  }

  /** Membership is exact string equality: a trailing slash or a sub-path is protected. */
  lemma PublicMatchIsExact()
    ensures Guard("/login/", None) == Redirect("/login", "/login/")
    ensures Guard("/about/x", None) == Redirect("/login", "/about/x")
  {
    assert "/login/" != "/login" && "/login/" != "/register" && "/login/" != "/about" && "/login/" != "/contact";
    assert |"/about/x"| == 8;
  }

  /** The home page, the cart and checkout are protected, and only the exact cookie
      value "true" lets a visitor through. */
  lemma ShopPagesAreProtected(cookie: Option<string>)
    requires cookie != Some("true")
    ensures Guard("/", cookie) == Redirect("/login", "/")
    ensures Guard("/cart", cookie) == Redirect("/login", "/cart")
    ensures Guard("/checkout", cookie) == Redirect("/login", "/checkout")
    ensures Guard("/cart", Some("TRUE")).Redirect?
    ensures Guard("/cart", Some("true")) == Next
  {
    assert |"/cart"| == 5 && |"/checkout"| == 9;
    assert "/cart" != "/about" && "/cart" != "/login";
    assert "TRUE" != "true";
  }
}
