/** The path computation of the language switcher: strip one leading locale
    segment from the current pathname, then re-prefix it for the chosen
    locale (the default locale is served without a prefix). */
module LanguageSwitcher {
  import opened Wrappers
  import opened Segments
  import opened LocaleConfig

  /** Whether the first non-empty segment of the pathname is a supported
      locale: the pathname is separators, a locale code, then the end or a
      separator. */
  predicate HasLocalePrefix(pathname: string)
    ensures HasLocalePrefix(pathname) <==>
      exists k: nat, l :: IsLocale(l) && SegmentAt(pathname, k, l)
  {
    var segs := PathSegments(pathname);
    assert forall k: nat, l | IsLocale(l) && SegmentAt(pathname, k, l) :: segs != [] && segs[0] == l by {
      forall k: nat, l | IsLocale(l) && SegmentAt(pathname, k, l)
        ensures segs != [] && segs[0] == l
      {
        LocalesAreSegments(l);
        FirstSegmentAt(pathname, k, l);
      }
    }
    if segs != [] then FirstSegmentPlaced(pathname); IsLocale(segs[0]) else false
  }

  /** `pathWithoutLocale`: the pathname without its locale segment, at least "/". */
  function PathWithoutLocale(pathname: string): (p: string)
    ensures p != ""
    ensures !HasLocalePrefix(pathname) && pathname != "" ==> p == pathname
  {
    var stripped :=
      if HasLocalePrefix(pathname) then "/" + Join(PathSegments(pathname)[1..])
      else pathname;
    if stripped == "" then "/" else stripped
  }

  /** The path for a non-default locale: `/L` followed by the locale-free path,
      the root collapsing to `/L` itself. */
  function Prefixed(l: string, p: string): (target: string)
    ensures |target| > |l| && target[0] == '/' && target[1..|l| + 1] == l
    ensures p != "/" ==> target[|l| + 1..] == p
    ensures p == "/" ==> |target| == |l| + 1
  {
    "/" + l + (if p == "/" then "" else p)
  }

  /** `handleLanguageChange`: the new location to navigate to, or None when the
      chosen locale is already the current one. The literal default locale of
      the source is `DefaultLocale`. */
  function SwitchTarget(pathname: string, current: Locale, chosen: Locale): (r: Option<string>)
    ensures r.None? <==> chosen == current
  {
    if chosen == current then None
    else
      var p := PathWithoutLocale(pathname);
      if chosen == DefaultLocale then Some(p) else Some(Prefixed(chosen, p))
  }

  /** A rooted path with no empty segment: no `//` and no trailing `/`. */
  predicate Clean(p: string)
  {
    p == "/" + Join(PathSegments(p))
  }

  /** A pathname as the router reports it: empty or starting with `/`. */
  predicate Rooted(p: string)
  {
    p == "" || p[0] == '/'
  }

  /** At most one locale segment goes: with a prefix, the remaining segments
      are the rest of the original ones and the path is clean; without one,
      the pathname is kept verbatim. */
  lemma StripsOneLocaleSegment(pathname: string)
    ensures HasLocalePrefix(pathname) ==>
      PathSegments(PathWithoutLocale(pathname)) == PathSegments(pathname)[1..] &&
      Clean(PathWithoutLocale(pathname))
    ensures !HasLocalePrefix(pathname) ==>
      PathWithoutLocale(pathname) == if pathname == "" then "/" else pathname
  {
    if HasLocalePrefix(pathname) {
      var rest := PathSegments(pathname)[1..];
      assert AllSegments(rest);
      SegmentsOfRooted(rest);
    }
  }

  lemma StripExample()
    ensures PathWithoutLocale("/en/de/x") == "/de/x"
  {
    var segs := ["en", "de", "x"];
    assert "/en/de/x" == "/" + Join(segs);
    SegmentsOfRooted(segs);
    assert "/" + Join(segs[1..]) == "/de/x";
  }

  /** The locale-free path of a rooted pathname is rooted. */
  lemma PathWithoutLocaleRooted(pathname: string)
    requires Rooted(pathname)
    ensures PathWithoutLocale(pathname)[0] == '/'
  {
  }

  /** Prefixing adds exactly the locale as the first segment. */
  lemma SegmentsOfPrefixed(l: string, p: string)
    requires IsSegment(l)
    requires p != "" && p[0] == '/'
    ensures PathSegments(Prefixed(l, p)) == [l] + PathSegments(p)
  {
    SplitSlashFree(l);
    if p == "/" {
      assert Prefixed(l, p) == "" + "/" + l;
      SplitAtSlash("", l);
      assert Split("/") == [""] + [""] by { SplitAtSlash("", ""); assert "" + "/" + "" == "/"; }
      NonEmptyAppend([""], [l]);
    } else {
      var tail := p[1..];
      assert p == "" + "/" + tail;
      SplitAtSlash("", tail);
      assert Prefixed(l, p) == "" + "/" + (l + "/" + tail);
      SplitAtSlash("", l + "/" + tail);
      SplitAtSlash(l, tail);
      assert Split(Prefixed(l, p)) == [""] + ([l] + Split(tail));
      NonEmptyAppend([""], [l] + Split(tail));
      NonEmptyAppend([l], Split(tail));
      NonEmptyAppend([""], Split(tail));
    }
  }

  /** Choosing the default locale navigates to the locale-free path. */
  lemma DefaultTargetIsBare(pathname: string, current: Locale)
    requires current != DefaultLocale
    ensures SwitchTarget(pathname, current, DefaultLocale) == Some(PathWithoutLocale(pathname))
    ensures HasLocalePrefix(pathname) ==>
      PathSegments(SwitchTarget(pathname, current, DefaultLocale).value) == PathSegments(pathname)[1..]
  {
    StripsOneLocaleSegment(pathname);
  }

  /** Choosing another locale L: the result starts with `/`, its segments are
      L followed by those of the locale-free path, and the root becomes `/L`. */
  lemma PrefixedTarget(pathname: string, current: Locale, chosen: Locale)
    requires chosen != current && chosen != DefaultLocale
    requires Rooted(pathname)
    ensures SwitchTarget(pathname, current, chosen).Some?
    ensures SwitchTarget(pathname, current, chosen).value[0] == '/'
    ensures PathSegments(SwitchTarget(pathname, current, chosen).value)
         == [chosen] + PathSegments(PathWithoutLocale(pathname))
    ensures PathWithoutLocale(pathname) == "/" ==>
      SwitchTarget(pathname, current, chosen).value == "/" + chosen
  {
    var p := PathWithoutLocale(pathname);
    PathWithoutLocaleRooted(pathname);
    LocalesAreSegments(chosen);
    SegmentsOfPrefixed(chosen, p);
  }

  /** Round trip: stripping the locale from the target of a non-default
      locale gives back the locale-free path, provided it is clean. */
  lemma RoundTrip(pathname: string, current: Locale, chosen: Locale)
    requires chosen != current && chosen != DefaultLocale
    requires Clean(PathWithoutLocale(pathname))
    ensures PathWithoutLocale(SwitchTarget(pathname, current, chosen).value) == PathWithoutLocale(pathname)
  {
    var p := PathWithoutLocale(pathname);
    var target := Prefixed(chosen, p);
    LocalesAreSegments(chosen);
    SegmentsOfPrefixed(chosen, p);
    assert PathSegments(target) == [chosen] + PathSegments(p);
    assert HasLocalePrefix(target);
    assert ([chosen] + PathSegments(p))[1..] == PathSegments(p);
  }
}
