/*
 * Resolution of the URLs found in content: absolute URLs pass through
 * unchanged, root-relative ones are prefixed with the site's base URL, and
 * the other relative references are resolved against the content item's URL
 * by the merge of section 5.2.3 of RFC 3986 and the remove_dot_segments
 * algorithm of section 5.2.4, here applied to the path's segments.
 */
module UrlResolver {
  import opened Wrappers
  import opened Strings

  /** Characters that end the authority of a URL (section 3.2 of RFC 3986). */
  const AuthorityEnd: set<char> := {'/', '?', '#'}

  /** Characters that end the path of a URL (section 3.3 of RFC 3986). */
  const PathEnd: set<char> := {'?', '#'}

  /** Characters that end a scheme candidate: its `:` or the start of a path, query or fragment. */
  const SchemeEnd: set<char> := {':', '/', '?', '#'}

  predicate Letter(c: char)
  {
    'a' <= c <= 'z' || 'A' <= c <= 'Z'
  }

  predicate SchemeChar(c: char)
  {
    Letter(c) || '0' <= c <= '9' || c == '+' || c == '-' || c == '.'
  }

  /** A scheme: a letter followed by letters, digits, `+`, `-` or `.` (section 3.1 of RFC 3986). */
  predicate ValidScheme(s: string)
  {
    |s| > 0 && Letter(s[0]) && forall i :: 0 <= i < |s| ==> SchemeChar(s[i])
  }

  /**
   * The scheme of `s`: the characters before its first `:` when no `/`, `?`
   * or `#` comes earlier and they form a valid scheme.
   */
  function SchemeOf(s: string): (r: Option<string>)
    ensures r.Some? ==> ValidScheme(r.value) && |r.value| < |s| && s == r.value + ":" + s[|r.value| + 1..]
  {
    var k := FirstIndex(s, SchemeEnd);
    if k < |s| && s[k] == ':' && ValidScheme(s[..k]) then
      assert s == s[..k] + ":" + s[k + 1..];
      Some(s[..k])
    else None
  }

  /** A valid scheme followed by `:` is recognised as the scheme, whatever follows. */
  lemma SchemeOfPrefix(scheme: string, rest: string)
    requires ValidScheme(scheme)
    ensures SchemeOf(scheme + ":" + rest) == Some(scheme)
  {
    var s := scheme + ":" + rest;
    assert s == scheme + (":" + rest);
    forall c | c in scheme
      ensures c !in SchemeEnd
    {
      var i :| 0 <= i < |scheme| && scheme[i] == c;
      assert SchemeChar(scheme[i]);
    }
    FirstIndexAfter(scheme, ":" + rest, SchemeEnd);
    assert s[..|scheme|] == scheme;
  }

  /** A reference none of whose characters is `:` has no scheme. */
  lemma NoColonNoScheme(s: string)
    requires ':' !in s
    ensures SchemeOf(s).None?
  {
  }

  /** An absolute URL with an authority, cut into its parts (section 3 of RFC 3986). */
  datatype Parts = Parts(scheme: string, authority: string, path: string, rest: string)

  /** The parts compose back into a URL, and each part is delimited as section 3 requires. */
  predicate WellFormed(p: Parts)
  {
    && ValidScheme(p.scheme)
    && (forall i :: 0 <= i < |p.authority| ==> p.authority[i] !in AuthorityEnd)
    && (p.path == [] || p.path[0] == '/')
    && (forall i :: 0 <= i < |p.path| ==> p.path[i] !in PathEnd)
    && (p.rest == [] || p.rest[0] in PathEnd)
  }

  function Compose(p: Parts): string
  {
    p.scheme + "://" + p.authority + p.path + p.rest
  }

  /** `scheme://authority`: the URL's origin. */
  function Origin(p: Parts): string
  {
    p.scheme + "://" + p.authority
  }

  /**
   * Cuts what follows `scheme://` into the authority, the path and the query
   * and fragment.
   */
  function SplitHier(hier: string): (r: (string, string, string))
    ensures hier == r.0 + r.1 + r.2
    ensures forall i :: 0 <= i < |r.0| ==> r.0[i] !in AuthorityEnd
    ensures forall i :: 0 <= i < |r.1| ==> r.1[i] !in PathEnd
    ensures r.1 == [] || r.1[0] == '/'
    ensures r.2 == [] || r.2[0] in PathEnd
  {
    var a := FirstIndex(hier, AuthorityEnd);
    var tail := hier[a..];
    var q := FirstIndex(tail, PathEnd);
    assert hier == hier[..a] + tail[..q] + tail[q..];
    (hier[..a], tail[..q], tail[q..])
  }

  /**
   * Cuts an absolute URL of the form `scheme://authority path [?query][#fragment]`
   * into its parts; other strings have no such parts.
   */
  function Parse(url: string): (r: Option<Parts>)
    ensures r.Some? ==> WellFormed(r.value) && Compose(r.value) == url
  {
    match SchemeOf(url)
    case None => None
    case Some(scheme) =>
      var afterScheme := url[|scheme| + 1..];
      if |afterScheme| < 2 || afterScheme[..2] != "//" then None
      else
        var h := SplitHier(afterScheme[2..]);
        ComposeAfterScheme(url, scheme, h.0, h.1, h.2);
        var parts := Parts(scheme, h.0, h.1, h.2);
        assert ValidScheme(parts.scheme);
        assert forall i :: 0 <= i < |parts.authority| ==> parts.authority[i] !in AuthorityEnd;
        assert forall i :: 0 <= i < |parts.path| ==> parts.path[i] !in PathEnd;
        assert WellFormed(parts);
        Some(parts)
  }

  lemma ComposeAfterScheme(url: string, scheme: string, a: string, p: string, r: string)
    requires |scheme| + 3 <= |url| && url == scheme + ":" + url[|scheme| + 1..]
    requires url[|scheme| + 1..][..2] == "//" && url[|scheme| + 1..][2..] == a + p + r
    ensures url == scheme + "://" + a + p + r
  {
    var after := url[|scheme| + 1..];
    assert after == "//" + after[2..];
  }

  /** `FirstIndex` stops right after a prefix none of whose characters is in `cs`. */
  lemma FirstIndexPast(a: string, b: string, cs: set<char>)
    requires forall i :: 0 <= i < |a| ==> a[i] !in cs
    requires b == [] || b[0] in cs
    ensures FirstIndex(a + b, cs) == |a|
  {
    forall c | c in a
      ensures c !in cs
    {
      var i :| 0 <= i < |a| && a[i] == c;
    }
    FirstIndexAfter(a, b, cs);
  }

  /** Cutting a hierarchical part gives back the authority, path and rest it was made of. */
  lemma SplitHierOf(a: string, path: string, rest: string)
    requires forall i :: 0 <= i < |a| ==> a[i] !in AuthorityEnd
    requires path == [] || path[0] == '/'
    requires forall i :: 0 <= i < |path| ==> path[i] !in PathEnd
    requires rest == [] || rest[0] in PathEnd
    ensures SplitHier(a + path + rest) == (a, path, rest)
  {
    var hier := a + path + rest;
    assert hier == a + (path + rest);
    assert path + rest == [] || (path + rest)[0] in AuthorityEnd;
    FirstIndexPast(a, path + rest, AuthorityEnd);
    var tail := hier[|a|..];
    assert tail == path + rest;
    FirstIndexPast(path, rest, PathEnd);
    assert tail[..|path|] == path && tail[|path|..] == rest;
  }

  /** A URL `scheme://hier` is parsed by cutting `hier`. */
  lemma ParseHier(scheme: string, hier: string)
    requires ValidScheme(scheme)
    ensures var h := SplitHier(hier);
      Parse(scheme + ":" + ("//" + hier)) == Some(Parts(scheme, h.0, h.1, h.2))
  {
    var url := scheme + ":" + ("//" + hier);
    SchemeOfPrefix(scheme, "//" + hier);
    assert url[|scheme| + 1..] == "//" + hier;
    assert ("//" + hier)[2..] == hier;
  }

  /** Parsing a composed URL gives its parts back. */
  lemma ParseCompose(p: Parts)
    requires WellFormed(p)
    ensures Parse(Compose(p)) == Some(p)
  {
    var hier := p.authority + p.path + p.rest;
    assert Compose(p) == p.scheme + ":" + ("//" + hier);
    ParseHier(p.scheme, hier);
    SplitHierOf(p.authority, p.path, p.rest);
  }

  /** No character of `s` ends an authority. */
  predicate HostChars(s: string)
  {
    '/' !in s && '?' !in s && '#' !in s
  }

  /** A URL `scheme://host...` parses with that scheme and that host. */
  lemma ParseOrigin(scheme: string, host: string, tail: string)
    requires ValidScheme(scheme) && HostChars(host)
    requires tail == [] || tail[0] in AuthorityEnd
    ensures Parse(scheme + "://" + host + tail).Some?
    ensures Parse(scheme + "://" + host + tail).value.scheme == scheme
    ensures Parse(scheme + "://" + host + tail).value.authority == host
  {
    var url := scheme + "://" + host + tail;
    assert url == scheme + ":" + ("//" + (host + tail));
    SchemeOfPrefix(scheme, "//" + (host + tail));
    assert url[|scheme| + 1..] == "//" + (host + tail);
    assert ("//" + (host + tail))[2..] == host + tail;
    assert forall i :: 0 <= i < |host| ==> host[i] in host;
    FirstIndexPast(host, tail, AuthorityEnd);
  }

  /** The host of a URL: its authority, when it has one. */
  function HostOf(url: string): Option<string>
  {
    match Parse(url)
    case Some(p) => Some(p.authority)
    case None => None
  }

  /** The URL has an authority and the scheme `http` or `https`: the only URLs the link checker supports. */
  predicate IsHttp(url: string)
  {
    Parse(url).Some? && Parse(url).value.scheme in {"http", "https"}
  }

  /* ---- Paths as lists of segments ---- */

  /** The path `/s1/s2/.../sn`; the empty list is the empty path. */
  function Path(segs: seq<string>): (p: string)
    ensures segs == [] <==> p == []
    ensures segs != [] ==> p[0] == '/'
  {
    if segs == [] then [] else "/" + segs[0] + Path(segs[1..])
  }

  /** A non-empty path is its segments joined by slashes after a leading slash. */
  lemma {:induction false} PathJoin(segs: seq<string>)
    requires segs != []
    ensures Path(segs) == "/" + Join(segs, '/')
    decreases |segs|
  {
    if |segs| > 1 {
      PathJoin(segs[1..]);
      JoinAppend([segs[0]], segs[1..], '/');
      assert [segs[0]] + segs[1..] == segs;
    }
  }

  /** Paths of concatenated segment lists concatenate. */
  lemma {:induction false} PathAppend(a: seq<string>, b: seq<string>)
    ensures Path(a + b) == Path(a) + Path(b)
    decreases |a|
  {
    if a == [] {
      assert a + b == b;
    } else {
      assert (a + b)[1..] == a[1..] + b;
      PathAppend(a[1..], b);
    }
  }

  /** A path holds no character of `cs` other than its slashes when its segments hold none. */
  lemma PathExcludes(segs: seq<string>, cs: set<char>)
    requires '/' !in cs
    requires forall s :: s in segs ==> forall c :: c in cs ==> c !in s
    ensures forall c :: c in cs ==> c !in Path(segs)
  {
    if segs != [] {
      PathJoin(segs);
      JoinExcludes(segs, '/', cs);
    }
  }

  /** The segments of a path that starts with `/`: the pieces between its slashes. */
  function Segments(path: string): (segs: seq<string>)
    requires |path| > 0 && path[0] == '/'
    ensures |segs| >= 1
    ensures Path(segs) == path
  {
    JoinSplit(path[1..], '/');
    PathJoin(Split(path[1..], '/'));
    assert path == "/" + path[1..];
    Split(path[1..], '/')
  }

  /** The segments of `Path(segs)` are `segs` when none holds a slash. */
  lemma SegmentsOfPath(segs: seq<string>)
    requires segs != []
    requires forall s :: s in segs ==> '/' !in s
    ensures Segments(Path(segs)) == segs
  {
    var p := Path(segs);
    PathJoin(segs);
    assert p[1..] == Join(segs, '/');
    SplitJoin(segs, '/');
  }

  /** No segment is `.` or `..`. */
  predicate DotFree(segs: seq<string>)
  {
    forall i :: 0 <= i < |segs| ==> segs[i] != "." && segs[i] != ".."
  }

  lemma DotFreeAppend(a: seq<string>, b: seq<string>)
    requires DotFree(a) && DotFree(b)
    ensures DotFree(a + b)
  {
    forall i | 0 <= i < |a + b|
      ensures (a + b)[i] != "." && (a + b)[i] != ".."
    {
      if i >= |a| {
        assert (a + b)[i] == b[i - |a|];
      }
    }
  }

  /**
   * remove_dot_segments on segments: the output so far is `out` and the
   * segments still to read are `input`.  `.` is dropped, `..` drops the last
   * output segment, and either of them as the final segment leaves a trailing
   * slash (an empty last segment).
   */
  function Dots(out: seq<string>, input: seq<string>): (r: seq<string>)
    ensures DotFree(out) ==> DotFree(r)
    ensures input != [] ==> r != []
    ensures |r| <= |out| + |input|
    decreases |input|
  {
    if input == [] then out
    else
      var s := input[0];
      var last := |input| == 1;
      if s == "." then
        Dots(if last then out + [""] else out, input[1..])
      else if s == ".." then
        var popped := if out == [] then out else out[..|out| - 1];
        Dots(if last then popped + [""] else popped, input[1..])
      else
        Dots(out + [s], input[1..])
  }

  /** Section 5.2.4 of RFC 3986 on a list of segments. */
  function RemoveDots(segs: seq<string>): (r: seq<string>)
    ensures DotFree(r)
    ensures segs != [] ==> r != []
  {
    Dots([], segs)
  }

  /** Segments free of dots are copied to the output unchanged. */
  lemma {:induction false} DotsClean(out: seq<string>, clean: seq<string>, rest: seq<string>)
    requires DotFree(clean)
    ensures Dots(out, clean + rest) == Dots(out + clean, rest)
    decreases |clean|
  {
    if clean == [] {
      assert clean + rest == rest;
      assert out + clean == out;
    } else {
      var input := clean + rest;
      assert input[0] == clean[0] && input[1..] == clean[1..] + rest;
      DotsClean(out + [clean[0]], clean[1..], rest);
      assert out + [clean[0]] + clean[1..] == out + clean;
    }
  }

  /** Removing dot segments is idempotent: its result has none left. */
  lemma RemoveDotsIdempotent(segs: seq<string>)
    ensures RemoveDots(RemoveDots(segs)) == RemoveDots(segs)
  {
    var r := RemoveDots(segs);
    DotsClean([], r, []);
    assert r + [] == r;
    assert [] + r == r;
  }

  /** A dot-free list is left unchanged. */
  lemma RemoveDotsOfClean(segs: seq<string>)
    requires DotFree(segs)
    ensures RemoveDots(segs) == segs
  {
    DotsClean([], segs, []);
    assert segs + [] == segs;
    assert [] + segs == segs;
  }

  /** A `..` that is not the last segment removes the segment before it. */
  lemma DotsParent(out: seq<string>, x: string, rest: seq<string>)
    requires rest != []
    ensures Dots(out + [x], [".."] + rest) == Dots(out, rest)
  {
    var input := [".."] + rest;
    assert input[0] == ".." && input[1..] == rest;
    assert (out + [x])[..|out + [x]| - 1] == out;
  }

  /** A `.` that is not the last segment is dropped. */
  lemma DotsCurrent(out: seq<string>, rest: seq<string>)
    requires rest != []
    ensures Dots(out, ["."] + rest) == Dots(out, rest)
  {
    var input := ["."] + rest;
    assert input[0] == "." && input[1..] == rest;
  }

  /* ---- Resolution ---- */

  /** The site: its scheme, its host and its base path, given as segments. */
  datatype Site = Site(scheme: string, host: string, basePath: seq<string>)

  /** The site's base URL: `scheme://host` followed by its base path. */
  function SiteUrl(site: Site): string
  {
    site.scheme + "://" + site.host + Path(site.basePath)
  }

  /** The site's base URL has the site's host, when it is well formed. */
  predicate ValidSite(site: Site)
  {
    && site.scheme in {"http", "https"}
    && (forall c :: c in site.host ==> c !in AuthorityEnd)
    && (forall s :: s in site.basePath ==> '/' !in s && '?' !in s && '#' !in s)
    && DotFree(site.basePath)
  }

  /** The segments of the merged path (section 5.2.3 of RFC 3986): the base path's directory, then the reference's path. */
  function Merge(basePath: string, refPath: string): (segs: seq<string>)
    requires basePath == [] || basePath[0] == '/'
    ensures |segs| >= 1
  {
    if basePath == [] then Split(refPath, '/')
    else
      var b := Segments(basePath);
      b[..|b| - 1] + Split(refPath, '/')
  }

  /** The merged segments of a base path and a relative path with known segments. */
  lemma MergeSegments(baseSegs: seq<string>, refSegs: seq<string>)
    requires baseSegs != [] && refSegs != []
    requires forall s :: s in baseSegs ==> '/' !in s
    requires forall s :: s in refSegs ==> '/' !in s
    ensures Merge(Path(baseSegs), Join(refSegs, '/')) == baseSegs[..|baseSegs| - 1] + refSegs
  {
    SegmentsOfPath(baseSegs);
    SplitJoin(refSegs, '/');
  }

  /**
   * A reference resolved against a parsed base URL (section 5.2.2 of RFC 3986)
   * when the reference has no scheme and no authority and does not start with
   * `/`: a fragment keeps the base's path and query, a query keeps its path,
   * anything else is merged and cleared of dot segments.
   */
  function ResolveAgainst(ref: string, base: Parts): string
    requires ref != []
    requires base.path == [] || base.path[0] == '/'
  {
    if ref[0] == '#' then
      Origin(base) + base.path + base.rest[..FirstIndex(base.rest, {'#'})] + ref
    else if ref[0] == '?' then
      Origin(base) + base.path + ref
    else
      var k := FirstIndex(ref, PathEnd);
      Origin(base) + Path(RemoveDots(Merge(base.path, ref[..k]))) + ref[k..]
  }

  /** A reference with a path only is merged with the base path and cleared of dot segments. */
  lemma ResolvePathOnly(ref: string, base: Parts)
    requires ref != [] && ref[0] != '#' && ref[0] != '?'
    requires base.path == [] || base.path[0] == '/'
    requires forall i :: 0 <= i < |ref| ==> ref[i] !in PathEnd
    ensures ResolveAgainst(ref, base) == Origin(base) + Path(RemoveDots(Merge(base.path, ref)))
  {
    assert ref[..|ref|] == ref && ref[|ref|..] == [];
  }

  /**
   * Resolves a raw URL found in content.  `base` is the URL of the content
   * item; `None` when it is unknown.  Empty references and relative ones with
   * no usable base cannot be resolved.
   */
  function Resolve(ref: string, base: Option<string>, site: Site): (r: Option<string>)
    ensures ref == [] ==> r.None?
    ensures SchemeOf(ref).Some? ==> r == Some(ref)
    ensures SchemeOf(ref).None? && |ref| >= 2 && ref[..2] == "//" ==> r == Some(site.scheme + ":" + ref)
    ensures ref != [] && ref[0] == '/' && !(|ref| >= 2 && ref[1] == '/') ==> r == Some(SiteUrl(site) + ref)
    ensures ref != [] && ref[0] != '/' && SchemeOf(ref).None? ==>
      (r.Some? <==> base.Some? && Parse(base.value).Some?)
    ensures ref != [] && ref[0] != '/' && SchemeOf(ref).None? && r.Some? ==>
      r.value == ResolveAgainst(ref, Parse(base.value).value)
  {
    if ref == [] then None
    else if SchemeOf(ref).Some? then Some(ref)
    else if |ref| >= 2 && ref[..2] == "//" then Some(site.scheme + ":" + ref)
    else if ref[0] == '/' then Some(SiteUrl(site) + ref)
    else
      match base
      case None => None
      case Some(b) =>
        match Parse(b)
        case None => None
        case Some(p) => Some(ResolveAgainst(ref, p))
  }

  /** Every resolved URL is absolute: it has a scheme. */
  lemma ResolvedIsAbsolute(ref: string, base: Option<string>, site: Site)
    requires ValidSite(site)
    requires Resolve(ref, base, site).Some?
    ensures SchemeOf(Resolve(ref, base, site).value).Some?
  {
    var r := Resolve(ref, base, site);
    if SchemeOf(ref).Some? {
      assert r == Some(ref);
    } else if |ref| >= 2 && ref[..2] == "//" {
      assert r == Some(site.scheme + ":" + ref);
      SiteScheme(site);
      SchemeOfPrefix(site.scheme, ref);
    } else if ref[0] == '/' {
      assert r == Some(SiteUrl(site) + ref);
      SiteUrlIsAbsolute(site, ref);
    } else {
      ResolvedAgainstIsAbsolute(ref, Parse(base.value).value);
    }
  }

  /** A valid site's scheme is a well-formed scheme. */
  lemma SiteScheme(site: Site)
    requires ValidSite(site)
    ensures ValidScheme(site.scheme)
  {}

  /** The site's base URL followed by anything has the site's scheme. */
  lemma SiteUrlIsAbsolute(site: Site, ref: string)
    requires ValidSite(site)
    ensures SchemeOf(SiteUrl(site) + ref) == Some(site.scheme)
  {
    SiteScheme(site);
    var tail := "//" + site.host + Path(site.basePath) + ref;
    assert SiteUrl(site) + ref == site.scheme + ":" + tail;
    SchemeOfPrefix(site.scheme, tail);
  }

  lemma ResolvedAgainstIsAbsolute(ref: string, p: Parts)
    requires ref != [] && WellFormed(p)
    ensures SchemeOf(ResolveAgainst(ref, p)).Some?
  {
    var u := ResolveAgainst(ref, p);
    var tail := u[|Origin(p)|..];
    assert u == Origin(p) + tail;
    assert u == p.scheme + ":" + ("//" + p.authority + tail);
    SchemeOfPrefix(p.scheme, "//" + p.authority + tail);
  }

  /** A resolved URL resolves to itself: resolution is idempotent. */
  lemma ResolveIdempotent(ref: string, base: Option<string>, site: Site)
    requires ValidSite(site)
    requires Resolve(ref, base, site).Some?
    ensures Resolve(Resolve(ref, base, site).value, base, site) == Resolve(ref, base, site)
  {
    ResolvedIsAbsolute(ref, base, site);
  }

  /** A page of the site is the composition of well-formed parts: the site's scheme and host and the joined path. */
  lemma SitePageParts(site: Site, page: seq<string>)
    requires ValidSite(site)
    requires forall s :: s in page ==> '/' !in s && '?' !in s && '#' !in s
    ensures WellFormed(Parts(site.scheme, site.host, Path(site.basePath + page), ""))
    ensures SiteUrl(site) + Path(page) == Compose(Parts(site.scheme, site.host, Path(site.basePath + page), ""))
  {
    SitePagePath(site, page);
    PathAppend(site.basePath, page);
    assert ValidScheme(site.scheme);
    assert forall i :: 0 <= i < |site.host| ==> site.host[i] in site.host;
  }

  /** The joined path of a site page holds no character that ends a path. */
  lemma SitePagePath(site: Site, page: seq<string>)
    requires ValidSite(site)
    requires forall s :: s in page ==> '/' !in s && '?' !in s && '#' !in s
    ensures forall i :: 0 <= i < |Path(site.basePath + page)| ==> Path(site.basePath + page)[i] !in PathEnd
  {
    var path := Path(site.basePath + page);
    PathExcludes(site.basePath + page, {'?', '#'});
    assert forall i :: 0 <= i < |path| ==> path[i] in path;
  }

  /** A page of the site parses into the site's scheme and host and the page's full path. */
  lemma ParseSitePage(site: Site, page: seq<string>)
    requires ValidSite(site)
    requires forall s :: s in page ==> '/' !in s && '?' !in s && '#' !in s
    ensures Parse(SiteUrl(site) + Path(page))
         == Some(Parts(site.scheme, site.host, Path(site.basePath + page), ""))
  {
    var p := Parts(site.scheme, site.host, Path(site.basePath + page), "");
    SitePageParts(site, page);
    ParseCompose(p);
  }

  /** A relative path reference without query or fragment, given as its segments, against a parsed base. */
  lemma ResolveSegments(p: Parts, baseSegs: seq<string>, refSegs: seq<string>)
    requires p.path == Path(baseSegs) && baseSegs != []
    requires forall s :: s in baseSegs ==> '/' !in s
    requires refSegs != [] && refSegs[0] != []
    requires forall s :: s in refSegs ==> '/' !in s && '?' !in s && '#' !in s && ':' !in s
    ensures SchemeOf(Join(refSegs, '/')).None?
    ensures Join(refSegs, '/') != [] && Join(refSegs, '/')[0] !in {'/', '?', '#'}
    ensures ResolveAgainst(Join(refSegs, '/'), p)
         == Origin(p) + Path(RemoveDots(baseSegs[..|baseSegs| - 1] + refSegs))
  {
    var ref := Join(refSegs, '/');
    JoinStart(refSegs, '/');
    JoinExcludes(refSegs, '/', {':', '?', '#'});
    NoColonNoScheme(ref);
    assert ref[0] == refSegs[0][0] && refSegs[0] in refSegs;
    assert forall i :: 0 <= i < |ref| ==> ref[i] in ref;
    ResolvePathOnly(ref, p);
    MergeSegments(baseSegs, refSegs);
  }




  /** Against the parts of a site page, a relative reference replaces the page's last segment. */
  lemma AgainstSitePage(site: Site, dir: seq<string>, last: string, refSegs: seq<string>)
    requires forall s :: s in site.basePath ==> '/' !in s
    requires forall s :: s in dir + [last] ==> '/' !in s
    requires refSegs != [] && refSegs[0] != []
    requires forall s :: s in refSegs ==> '/' !in s && '?' !in s && '#' !in s && ':' !in s
    ensures ResolveAgainst(Join(refSegs, '/'), Parts(site.scheme, site.host, Path(site.basePath + (dir + [last])), ""))
         == site.scheme + "://" + site.host + Path(RemoveDots(site.basePath + dir + refSegs))
  {
    var segs := site.basePath + (dir + [last]);
    assert forall s :: s in segs ==> s in site.basePath || s in dir + [last];
    ResolveSegments(Parts(site.scheme, site.host, Path(segs), ""), segs, refSegs);
    assert segs[..|segs| - 1] == site.basePath + dir;
  }

  /** A relative reference in a page of the site is merged with the page's directory, then dot-free. */
  lemma ResolveInSitePage(site: Site, dir: seq<string>, last: string, refSegs: seq<string>)
    requires ValidSite(site)
    requires forall s :: s in dir + [last] ==> '/' !in s && '?' !in s && '#' !in s
    requires refSegs != [] && refSegs[0] != []
    requires forall s :: s in refSegs ==> '/' !in s && '?' !in s && '#' !in s && ':' !in s
    ensures Resolve(Join(refSegs, '/'), Some(SiteUrl(site) + Path(dir + [last])), site)
         == Some(site.scheme + "://" + site.host + Path(RemoveDots(site.basePath + dir + refSegs)))
  {
    var base := SiteUrl(site) + Path(dir + [last]);
    var ref := Join(refSegs, '/');
    ParseSitePage(site, dir + [last]);
    ResolveSegments(Parts(site.scheme, site.host, Path(site.basePath + (dir + [last])), ""), site.basePath + (dir + [last]), refSegs);
    AgainstSitePage(site, dir, last, refSegs);
  }

  /**
   * A relative path reference under a content item at `dir/last` of the
   * site: the base's last segment is dropped, the reference's segments
   * follow, and the dots are removed from what the site's base path and
   * `dir` leave.
   */
  lemma ResolveUnderSite(site: Site, dir: seq<string>, last: string, refSegs: seq<string>)
    requires ValidSite(site)
    requires DotFree(dir)
    requires forall s :: s in dir + [last] ==> '/' !in s && '?' !in s && '#' !in s
    requires refSegs != [] && refSegs[0] != []
    requires forall s :: s in refSegs ==> '/' !in s && '?' !in s && '#' !in s && ':' !in s
    ensures Resolve(Join(refSegs, '/'), Some(SiteUrl(site) + Path(dir + [last])), site)
         == Some(site.scheme + "://" + site.host + Path(Dots(site.basePath + dir, refSegs)))
  {
    ResolveInSitePage(site, dir, last, refSegs);
    var prefix := site.basePath + dir;
    DotFreeAppend(site.basePath, dir);
    DotsClean([], prefix, refSegs);
    assert [] + prefix == prefix;
  }
}
