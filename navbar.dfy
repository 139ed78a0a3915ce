/**
 * The site's navigation bar: the five section links under the current
 * locale, the test that marks a link active for the current path, the labels
 * of the language switcher, and the mobile menu whose open state also locks
 * the page's scrolling.
 */
module Navbar {
  import opened Strings

  /** A navigation link: its target path and the key of its translated label. */
  datatype NavLink = NavLink(href: string, labelKey: string)

  /** The five section links, each under `/<locale>`. */
  function NavLinks(locale: string): (r: seq<NavLink>)
    ensures |r| == 5
    ensures forall i :: 0 <= i < |r| ==> |"/" + locale + "/"| <= |r[i].href| && r[i].href[..|locale| + 2] == "/" + locale + "/"
    ensures forall i, j :: 0 <= i < j < |r| ==> r[i].href != r[j].href
  {
    var prefix := "/" + locale + "/";
    var r := [NavLink(prefix + "candidates", "candidates"), NavLink(prefix + "districts", "districts"),
              NavLink(prefix + "lists", "lists"), NavLink(prefix + "centers", "centers"), NavLink(prefix + "legal", "legal")];
    assert forall i :: 0 <= i < |r| ==> r[i].href[..|prefix|] == prefix;
    assert forall i :: 0 <= i < |r| ==> r[i].labelKey == r[i].href[|prefix|..];
    r
  }

  /** `s.startsWith(p)`. */
  predicate StartsWith(s: string, p: string) {
    |p| <= |s| && s[..|p|] == p
  }

  /** A link is active on its own path and on every path below it. */
  predicate IsActive(pathname: string, href: string) {
    pathname == href || StartsWith(pathname, href + "/")
  }

  /**
   * A path that merely begins with a link's path, without a `/` after it
   * (`/en/candidatesX` for `/en/candidates`), does not activate the link.
   */
  lemma {:induction false} SiblingPathInactive(href: string, rest: string)
    requires rest != [] && rest[0] != '/'
    ensures !IsActive(href + rest, href)
  {
    assert (href + rest)[|href|] == rest[0];
    assert (href + "/")[|href|] == '/';
  }

  /** Every path below a link's path, however deep, activates the link. */
  lemma {:induction false} SubpathActive(href: string, rest: string)
    ensures IsActive(href + "/" + rest, href)
  {
    assert (href + "/" + rest)[..|href + "/"|] == href + "/";
  }

  /** A path that activates a link agrees with the link's path on every position of it. */
  lemma {:induction false} ActivePathAgrees(pathname: string, href: string, k: int)
    requires IsActive(pathname, href) && 0 <= k < |href|
    ensures k < |pathname| && pathname[k] == href[k]
  {
    if pathname != href {
      assert pathname[..|href + "/"|][k] == (href + "/")[k];
    }
  }

  /** At most one section link is active for any path. */
  lemma {:induction false} AtMostOneActive(locale: string, pathname: string, i: int, j: int)
    requires 0 <= i < j < 5
    requires IsActive(pathname, NavLinks(locale)[i].href)
    ensures !IsActive(pathname, NavLinks(locale)[j].href)
  {
    var links := NavLinks(locale);
    var p := |"/" + locale + "/"|;
    var a, b := links[i].href, links[j].href;
    // the section names after `/<locale>/` differ at their first or second character
    var n := if a[p] != b[p] then p else p + 1;
    assert a[n] != b[n];
    ActivePathAgrees(pathname, a, n);
    if IsActive(pathname, b) {
      ActivePathAgrees(pathname, b, n);
    }
  }

  /** `localeNames[loc]?.native || loc.toUpperCase()`. */
  function LocaleLabel(loc: string): (r: string)
    ensures loc !in {"ar", "en", "fr"} ==> |r| == |loc|
    ensures loc !in {"ar", "en", "fr"} ==> forall k :: 0 <= k < |r| ==> !IsLowerAscii(r[k])
  {
    if loc == "ar" then "ع" else if loc == "en" then "EN" else if loc == "fr" then "FR"
    else seq(|loc|, k requires 0 <= k < |loc| => UpperChar(loc[k]))
  }

  /** The three supported languages have their own labels; no code reaches the fallback. */
  lemma {:induction false} SupportedLabels()
    ensures LocaleLabel("ar") == "ع" && LocaleLabel("en") == "EN" && LocaleLabel("fr") == "FR"
  {
  }

  /** The width in pixels from which the desktop layout replaces the mobile menu. */
  const DesktopWidth := 768

  class Bar {
    var mobileMenuOpen: bool
    /** The page body's `overflow` style, which the menu's effect keeps in step with the menu. */
    var bodyOverflow: string

    /** Scrolling is locked exactly while the menu is open. */
    ghost predicate Valid()
      reads this
    {
      bodyOverflow == if mobileMenuOpen then "hidden" else ""
    }

    constructor ()
      ensures Valid() && !mobileMenuOpen
    {
      mobileMenuOpen := false;
      bodyOverflow := "";
    }

    /** The effect that follows every change of the menu state. */
    method SyncOverflow()
      modifies this
      ensures Valid() && mobileMenuOpen == old(mobileMenuOpen)
    {
      bodyOverflow := if mobileMenuOpen then "hidden" else "";
    }

    /** The menu button toggles the menu. */
    method ToggleMenu()
      modifies this
      ensures Valid() && mobileMenuOpen == !old(mobileMenuOpen)
    {
      mobileMenuOpen := !mobileMenuOpen;
      SyncOverflow();
    }

    /** A click on the logo, a section link or a language link closes the menu. */
    method ClickLink()
      modifies this
      ensures Valid() && !mobileMenuOpen
    {
      mobileMenuOpen := false;
      SyncOverflow();
    }

    /** A resize to the desktop width or wider closes the menu; a narrower one leaves it. */
    method Resize(width: int)
      requires Valid()
      modifies this
      ensures Valid()
      ensures mobileMenuOpen == (old(mobileMenuOpen) && width < DesktopWidth)
    {
      if width >= DesktopWidth {
        mobileMenuOpen := false;
        SyncOverflow();
      }
    }
  }
}
