/**
 * The static-hosting redirect: a deep link that the host's not-found page folded into the
 * query string as `?/path` (with each `&` of the path written `~and~`) is turned back
 * into a path, and the address is replaced by it. Also the list of the application's
 * routes and the fallback address.
 */
module RedirectHandler {
  import opened Wrappers
  import opened Text

  /** The routes of the application. */
  const ValidRoutes: seq<string> :=
    ["/", "/login", "/clientes", "/kombuchas", "/ventas", "/rutas", "/mapa", "/recordatorios", "/usuarios"]

  /** `isValidRoute`. */
  predicate IsValidRoute(pathname: string) {
    pathname in ValidRoutes
  }

  /** An absolute path that does not end with `/`, unless it is the root. */
  predicate AbsoluteWithoutTrailingSlash(p: string) {
    StartsWith(p, "/") && (p == "/" || p[|p| - 1] != '/')
  }

  /** Every route is an absolute path and only the root ends with `/`. */
  lemma ValidRoutesShape()
    ensures forall p :: IsValidRoute(p) ==> AbsoluteWithoutTrailingSlash(p)
  {
    assert AbsoluteWithoutTrailingSlash("/") && AbsoluteWithoutTrailingSlash("/login");
    assert AbsoluteWithoutTrailingSlash("/clientes") && AbsoluteWithoutTrailingSlash("/kombuchas");
    assert AbsoluteWithoutTrailingSlash("/ventas") && AbsoluteWithoutTrailingSlash("/rutas");
    assert AbsoluteWithoutTrailingSlash("/mapa") && AbsoluteWithoutTrailingSlash("/recordatorios");
    assert AbsoluteWithoutTrailingSlash("/usuarios");
  }

  /** Neither the empty path nor the fallback address is a route. */
  lemma FallbackIsNotRoute()
    ensures !IsValidRoute("") && !IsValidRoute(MainUrl)
  {
    forall i | 0 <= i < |ValidRoutes|
      ensures ValidRoutes[i] != MainUrl
    {
      assert |ValidRoutes[i]| < |MainUrl|;
    }
  }

  /** The marker the not-found page puts in front of the folded path. */
  const Marker := "?/"

  /** The cleaned path: drop the first marker, keep what precedes the first `&`, turn `~and~` into `&`. */
  function CleanPath(search: string): string {
    var path := ReplaceFirst(search, Marker, "");
    ReplaceAll(BeforeFirst(path, '&'), "~and~", "&")
  }

  /** The address `handleGitHubPagesRedirect` writes, or `None` when the query has no marker. */
  function RedirectUrl(pathname: string, search: string, hash: string): Option<string> {
    if Contains(search, Marker) then Some(pathname + CleanPath(search) + hash) else None
  }

  /** The address `redirectToMain` sends the browser to. */
  const MainUrl := "/KombuchaApp/KombuchaApp/"

  /** How a path is folded into the query: each `&` written `~and~`. */
  function Encode(path: string): (r: string)
    ensures '&' !in r
  {
    if path == [] then []
    else (if path[0] == '&' then "~and~" else [path[0]]) + Encode(path[1..])
  }

  /** Without `~` in the path, turning `~and~` back into `&` undoes the folding. */
  lemma {:induction false} DecodeEncode(path: string)
    requires '~' !in path
    ensures ReplaceAll(Encode(path), "~and~", "&") == path
  {
    if path != [] {
      var rest := Encode(path[1..]);
      DecodeEncode(path[1..]);
      if path[0] == '&' {
        var e := "~and~" + rest;
        assert e[..5] == "~and~" && e[5..] == rest;
      } else {
        var e := [path[0]] + rest;
        assert e[1..] == rest;
        if |e| < 5 {
          assert ReplaceAll(rest, "~and~", "&") == rest;
        } else {
          assert e[..5][0] == path[0];
        }
      }
    }
  }

  /** The text before the first `c` of `a + b`, when `a` has none and `b` starts with one or is empty. */
  lemma {:induction false} BeforeFirstOfAppend(a: string, b: string, c: char)
    requires c !in a && (b == [] || b[0] == c)
    ensures BeforeFirst(a + b, c) == a
  {
    if a != [] {
      BeforeFirstOfAppend(a[1..], b, c);
      assert (a + b)[1..] == a[1..] + b;
    } else {
      assert a + b == b;
    }
  }

  /** Removing the marker at the front gives back what follows it. */
  lemma DropLeadingMarker(rest: string)
    ensures ReplaceFirst(Marker + rest, Marker, "") == rest
  {
    var s := Marker + rest;
    assert OccursAt(s, Marker, 0);
  }

  /**
   * Round trip: a path without `~`, folded behind the marker and followed by nothing or by
   * an `&`-separated query, comes back as exactly that path.
   */
  lemma CleanPathRoundTrip(path: string, query: string)
    requires '~' !in path
    requires query == [] || query[0] == '&'
    ensures CleanPath(Marker + Encode(path) + query) == path
  {
    assert Marker + Encode(path) + query == Marker + (Encode(path) + query);
    DropLeadingMarker(Encode(path) + query);
    BeforeFirstOfAppend(Encode(path), query, '&');
    DecodeEncode(path);
  }

  /** The rewrite happens iff the query holds the marker, and keeps the path and the fragment around the cleaned part. */
  lemma RedirectUrlCases(pathname: string, search: string, hash: string)
    ensures RedirectUrl(pathname, search, hash).Some? <==> Contains(search, Marker)
    ensures RedirectUrl(pathname, search, hash).Some? ==>
              var u := RedirectUrl(pathname, search, hash).value;
              StartsWith(u, pathname) && u[|u| - |hash|..] == hash
    ensures RedirectUrl(pathname, search, hash).Some? ==> '&' !in BeforeFirst(ReplaceFirst(search, Marker, ""), '&')
  {
  }

  /** The browser location the handler reads and the history entry it replaces. */
  class Browser {
    var pathname: string
    var search: string
    var hash: string
    /** The address of the current history entry. */
    var currentUrl: string
    var href: string

    constructor(pathname: string, search: string, hash: string)
      ensures this.pathname == pathname && this.search == search && this.hash == hash
      ensures currentUrl == pathname + search + hash && href == currentUrl
    {
      this.pathname := pathname;
      this.search := search;
      this.hash := hash;
      currentUrl := pathname + search + hash;
      href := pathname + search + hash;
    }

    /** `handleGitHubPagesRedirect`: replace the history entry when the query holds a folded path. */
    method HandleGitHubPagesRedirect()
      modifies this
      ensures Contains(search, Marker) ==> currentUrl == RedirectUrl(pathname, search, hash).value
      ensures !Contains(search, Marker) ==> currentUrl == old(currentUrl)
      ensures pathname == old(pathname) && search == old(search) && hash == old(hash) && href == old(href)
    {
      if Contains(search, Marker) {
        var path := ReplaceFirst(search, Marker, "");
        var cleanPath := ReplaceAll(BeforeFirst(path, '&'), "~and~", "&");
        var newUrl := pathname + cleanPath + hash;
        currentUrl := newUrl;
      }
    }

    /** `redirectToMain`. */
    method RedirectToMain()
      modifies this
      ensures href == MainUrl
      ensures pathname == old(pathname) && search == old(search) && hash == old(hash) && currentUrl == old(currentUrl)
    {
      href := MainUrl;
    }
  }
}
