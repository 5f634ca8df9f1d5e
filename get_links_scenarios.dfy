/*
 * The getLinks scenarios of the service's kernel test: the test's URL list
 * (external, example.*, relative and unsupported URLs) under the external,
 * internal and blacklist settings, on a site whose host and base path are
 * parameters.
 */
module ServiceScenarios {
  import opened Wrappers
  import opened Sequences
  import opened Strings
  import opened UrlResolver
  import opened HtmlLinkExtractor
  import opened ExtractorService
  import opened ServiceFixture

  /** The unsupported URLs of the test. */
  const UnsupportedUrls: seq<string> := ["mailto:test@example.com", "javascript:foo()", ""]

  /** The test's URL list: external, example.*, relative and unsupported URLs, in that order. */
  function TestUrls(ext: seq<(string, string)>, bl: seq<(string, string)>, rels: seq<string>, uns: seq<string>): (r: seq<string>)
    ensures |r| == |ext| + |bl| + |rels| + |uns|
  {
    HttpUrls(ext) + HttpUrls(bl) + rels + uns
  }

  /** The test's lists themselves. */
  predicate TestLists(ext: seq<(string, string)>, bl: seq<(string, string)>, rels: seq<string>, uns: seq<string>)
  {
    Same(ext, ExternalPairs) && Same(bl, BlacklistedPairs) && Same(rels, RefTexts) && Same(uns, UnsupportedUrls)
  }

  /** Two sequences with the same entries, stated entry by entry. */
  predicate Same<T(==)>(a: seq<T>, b: seq<T>)
  {
    |a| == |b| && forall i :: 0 <= i < |a| ==> a[i] == b[i]
  }

  /** The kept URLs of the test list are those of its four parts, in order. */
  lemma KeptTestUrls(ext: seq<(string, string)>, bl: seq<(string, string)>, rels: seq<string>, uns: seq<string>,
                     base: Option<string>, settings: Settings, site: Site)
    ensures Kept(TestUrls(ext, bl, rels, uns), base, settings, site)
         == Kept(HttpUrls(ext), base, settings, site) + Kept(HttpUrls(bl), base, settings, site)
          + Kept(rels, base, settings, site) + Kept(uns, base, settings, site)
  {
    KeptAppend(HttpUrls(ext) + HttpUrls(bl) + rels, uns, base, settings, site);
    KeptAppend(HttpUrls(ext) + HttpUrls(bl), rels, base, settings, site);
    KeptAppend(HttpUrls(ext), HttpUrls(bl), base, settings, site);
  }

  /* ---- Unsupported URLs ---- */

  /** A URL whose scheme is neither http nor https is dropped, whatever the settings. */
  lemma KeepOtherScheme(scheme: string, rest: string, base: Option<string>, settings: Settings, site: Site)
    requires ValidScheme(scheme) && scheme !in {"http", "https"}
    ensures Keep(scheme + ":" + rest, base, settings, site) == []
  {
    SchemeOfPrefix(scheme, rest);
    OtherSchemeNotHttp(scheme + ":" + rest, scheme);
  }

  lemma MailtoUrl(u: string)
    requires u == "mailto:test@example.com"
    ensures u == "mailto" + ":" + "test@example.com" && ValidScheme("mailto")
  {
  }

  lemma JavascriptUrl(u: string)
    requires u == "javascript:foo()"
    ensures u == "javascript" + ":" + "foo()" && ValidScheme("javascript")
  {
  }

  /** A URL whose scheme is neither http nor https is not an http URL. */
  lemma OtherSchemeUrl(scheme: string, rest: string)
    requires ValidScheme(scheme) && scheme !in {"http", "https"}
    ensures !IsHttp(scheme + ":" + rest)
  {
    SchemeOfPrefix(scheme, rest);
    OtherSchemeNotHttp(scheme + ":" + rest, scheme);
  }

  lemma EmptyNotHttp()
    ensures !IsHttp("")
  {
  }

  /** None of the unsupported URLs is an http URL, so none of them can be returned. */
  lemma UnsupportedNotHttp(uns: seq<string>)
    requires Same(uns, UnsupportedUrls)
    ensures forall u :: u in uns ==> !IsHttp(u)
  {
    assert uns == UnsupportedUrls;
    MailtoUrl(uns[0]);
    OtherSchemeUrl("mailto", "test@example.com");
    JavascriptUrl(uns[1]);
    OtherSchemeUrl("javascript", "foo()");
    EmptyNotHttp();
    assert uns == [uns[0], uns[1], ""];
  }

  /** The mailto URL is dropped, whatever the settings and the base. */
  lemma KeepMailto(raw: string, base: Option<string>, settings: Settings, site: Site)
    requires raw == "mailto:test@example.com"
    ensures Keep(raw, base, settings, site) == []
  {
    MailtoUrl(raw);
    KeepOtherScheme("mailto", "test@example.com", base, settings, site);
  }

  /** The javascript URL is dropped, whatever the settings and the base. */
  lemma KeepJavascript(raw: string, base: Option<string>, settings: Settings, site: Site)
    requires raw == "javascript:foo()"
    ensures Keep(raw, base, settings, site) == []
  {
    JavascriptUrl(raw);
    KeepOtherScheme("javascript", "foo()", base, settings, site);
  }

  /** The unsupported URLs contribute nothing, whatever the settings and the base. */
  lemma KeptUnsupported(uns: seq<string>, base: Option<string>, settings: Settings, site: Site)
    requires Same(uns, UnsupportedUrls)
    ensures Kept(uns, base, settings, site) == []
  {
    forall raw | raw in uns
      ensures Keep(raw, base, settings, site) == []
    {
      var i :| 0 <= i < |uns| && uns[i] == raw;
      if i == 0 {
        KeepMailto(raw, base, settings, site);
      } else if i == 1 {
        KeepJavascript(raw, base, settings, site);
      }
    }
    KeptNone(uns, base, settings, site);
  }

  /* ---- Relative references without a base ---- */

  /** Without a base, references of the test's shape yield nothing when only external links are wanted. */
  lemma KeptRelativeNoBase(segss: seq<seq<string>>, settings: Settings, site: Site)
    requires ValidSite(site) && settings.scope == External
    requires forall i :: 0 <= i < |segss| ==> segss[i] != [] && RefShape(segss[i])
    ensures Kept(JoinAll(segss), None, settings, site) == []
  {
    var raws := JoinAll(segss);
    forall raw | raw in raws
      ensures Keep(raw, None, settings, site) == []
    {
      var i :| 0 <= i < |raws| && raws[i] == raw;
      KeepRefNoBase(segss[i], settings, site);
    }
    KeptNone(raws, None, settings, site);
  }

  /** Without a base, the test's relative references yield nothing when only external links are wanted. */
  lemma RelativeNoBase(rels: seq<string>, settings: Settings, site: Site)
    requires ValidSite(site) && settings.scope == External && Same(rels, RefTexts)
    ensures Kept(rels, None, settings, site) == []
  {
    assert rels == RefTexts;
    var segss :| segss == RefSegs;
    RefSegsNonEmpty(segss);
    RefSegsShape(segss);
    RelativeRefsText(segss, rels);
    KeptRelativeNoBase(segss, settings, site);
  }

  /* ---- Distinctness ---- */

  lemma HttpUrlsAppend(a: seq<(string, string)>, b: seq<(string, string)>)
    ensures HttpUrls(a + b) == HttpUrls(a) + HttpUrls(b)
  {
    var l, r := HttpUrls(a + b), HttpUrls(a) + HttpUrls(b);
    assert |l| == |r|;
    forall i | 0 <= i < |l|
      ensures l[i] == r[i]
    {
      if i < |a| {
        assert (a + b)[i] == a[i];
      } else {
        assert (a + b)[i] == b[i - |a|];
      }
    }
  }

  /** The external hosts are hosts, and so are the example.* ones. */
  lemma TestHostsOk(site: Site, ext: seq<(string, string)>, bl: seq<(string, string)>)
    requires TestSite(site) && ext == ExternalPairs && bl == BlacklistedPairs
    ensures HostsOk(ext) && HostsOk(bl)
  {
    ExtHosts();
    BlHosts();
    forall p | p in ext
      ensures HostChars(p.0)
    {
      ExternalHostKinds(site, p.0);
    }
    forall p | p in bl
      ensures HostChars(p.0)
    {
      BlacklistedHostKinds(site, p.0);
    }
  }

  lemma HostsDisjoint()
    ensures forall h :: h in ExternalHosts ==> h !in BlacklistedHosts
  {
  }

  /** The external and example.* URLs of the test are 26 distinct URLs. */
  lemma AbsoluteUrlsDistinct(site: Site, ext: seq<(string, string)>, bl: seq<(string, string)>)
    requires TestSite(site) && Same(ext, ExternalPairs) && Same(bl, BlacklistedPairs)
    ensures NoDup(HttpUrls(ext) + HttpUrls(bl))
  {
    assert ext == ExternalPairs && bl == BlacklistedPairs;
    ExtNoDup();
    BlNoDup();
    ExtHosts();
    BlHosts();
    HostsDisjoint();
    TestHostsOk(site, ext, bl);
    NoDupAppend(ext, bl);
    assert HostsOk(ext + bl);
    HttpUrlsNoDup(ext + bl);
    HttpUrlsAppend(ext, bl);
  }

  /** The host of a site page is the site's host. */
  lemma PageHost(site: Site, out: seq<string>)
    requires ValidSite(site)
    ensures HostOf(SiteUrl(site) + Path(out)) == Some(site.host)
  {
    SitePageIsWeb(site, out);
    HttpScheme();
    var p := Path(site.basePath + out);
    assert p == [] || p[0] == '/';
    HostOfWeb(site.scheme, site.host, p);
  }

  /** Distinct segment lists give distinct site pages. */
  lemma PagesNoDup(site: Site, outs: seq<seq<string>>)
    requires NoDup(outs)
    requires forall i :: 0 <= i < |outs| ==> outs[i] != [] && forall s :: s in outs[i] ==> '/' !in s
    ensures NoDup(Pages(site, outs))
  {
    var r := Pages(site, outs);
    forall i, j | 0 <= i < j < |r|
      ensures r[i] != r[j]
    {
      if r[i] == r[j] {
        PrefixCancel(SiteUrl(site), Path(outs[i]), Path(outs[j]));
        SegmentsOfPath(outs[i]);
        SegmentsOfPath(outs[j]);
      }
    }
  }

  /** The expected pages are sixteen distinct plain segment lists. */
  lemma ExpectedDistinct(f1: string, outs: seq<seq<string>>)
    requires MachineName(f1, 10) && outs == ExpectedSegs(f1)
    ensures NoDup(outs)
  {
  }

  lemma ExpectedPlain(f1: string, outs: seq<seq<string>>)
    requires MachineName(f1, 10) && outs == ExpectedSegs(f1)
    ensures forall i :: 0 <= i < |outs| ==> outs[i] != [] && forall s :: s in outs[i] ==> '/' !in s
  {
    MachineNameSegment(f1, 10);
  }

  lemma ExpectedPagesDistinct(site: Site, f1: string)
    requires MachineName(f1, 10)
    ensures NoDup(Pages(site, ExpectedSegs(f1)))
  {
    var outs :| outs == ExpectedSegs(f1);
    ExpectedDistinct(f1, outs);
    ExpectedPlain(f1, outs);
    PagesNoDup(site, outs);
  }

  /* ---- The three scenarios ---- */

  /** The test's pairs are on hosts, the external ones on the external hosts and the others on the example.* hosts. */
  lemma TestPairs(site: Site, ext: seq<(string, string)>, bl: seq<(string, string)>)
    requires TestSite(site) && Same(ext, ExternalPairs) && Same(bl, BlacklistedPairs)
    ensures HostsOk(ext) && HostsOk(bl)
    ensures forall p :: p in ext ==> p.0 in ExternalHosts
    ensures forall p :: p in bl ==> p.0 in BlacklistedHosts
  {
    ExternalPairsOk(site, ext);
    BlacklistedPairsOk(site, bl);
  }

  lemma ExternalPairsOk(site: Site, ext: seq<(string, string)>)
    requires TestSite(site) && Same(ext, ExternalPairs)
    ensures HostsOk(ext) && forall p :: p in ext ==> p.0 in ExternalHosts
  {
    assert ext == ExternalPairs;
    ExtHosts();
    forall p | p in ext
      ensures HostChars(p.0)
    {
      ExternalHostKinds(site, p.0);
    }
  }

  lemma BlacklistedPairsOk(site: Site, bl: seq<(string, string)>)
    requires TestSite(site) && Same(bl, BlacklistedPairs)
    ensures HostsOk(bl) && forall p :: p in bl ==> p.0 in BlacklistedHosts
  {
    assert bl == BlacklistedPairs;
    BlHosts();
    forall p | p in bl
      ensures HostChars(p.0)
    {
      BlacklistedHostKinds(site, p.0);
    }
  }

  /** The external hosts are other hosts' links, with the empty blacklist and with the test's. */
  lemma ExternalKinds(site: Site)
    requires TestSite(site)
    ensures forall h :: h in ExternalHosts ==> HostKind(h, [], site) == ExternalLink && HostKind(h, BlacklistEntries, site) == ExternalLink
  {
    forall h | h in ExternalHosts
      ensures HostKind(h, [], site) == ExternalLink && HostKind(h, BlacklistEntries, site) == ExternalLink
    {
      ExternalHostKinds(site, h);
    }
  }

  /** The example.* hosts are other hosts' links with the empty blacklist and blacklisted with the test's. */
  lemma BlacklistedKinds(site: Site)
    requires TestSite(site)
    ensures forall h :: h in BlacklistedHosts ==> HostKind(h, [], site) == ExternalLink && HostKind(h, BlacklistEntries, site) == Blacklisted
  {
    forall h | h in BlacklistedHosts
      ensures HostKind(h, [], site) == ExternalLink && HostKind(h, BlacklistEntries, site) == Blacklisted
    {
      BlacklistedHostKinds(site, h);
    }
  }

  /** http URLs on hosts whose kind the settings admit are all kept. */
  lemma KeptOnHostsAll(pairs: seq<(string, string)>, hosts: set<string>, base: Option<string>, settings: Settings, site: Site)
    requires HostsOk(pairs) && forall p :: p in pairs ==> p.0 in hosts
    requires forall h :: h in hosts ==> InScope(HostKind(h, Entries(settings.blacklist), site), settings.scope)
    ensures Kept(HttpUrls(pairs), base, settings, site) == HttpUrls(pairs)
  {
    KeptHttpAll(pairs, base, settings, site);
  }

  /** http URLs on hosts whose kind the settings reject are all dropped. */
  lemma KeptOnHostsNone(pairs: seq<(string, string)>, hosts: set<string>, base: Option<string>, settings: Settings, site: Site)
    requires HostsOk(pairs) && forall p :: p in pairs ==> p.0 in hosts
    requires forall h :: h in hosts ==> !InScope(HostKind(h, Entries(settings.blacklist), site), settings.scope)
    ensures Kept(HttpUrls(pairs), base, settings, site) == []
  {
    KeptHttpNone(pairs, base, settings, site);
  }

  /** Without a blacklist, external links only: every absolute URL of the test is kept. */
  lemma ExternalAbsoluteKept(site: Site, settings: Settings, ext: seq<(string, string)>, bl: seq<(string, string)>)
    requires TestSite(site) && Same(ext, ExternalPairs) && Same(bl, BlacklistedPairs)
    requires settings.blacklist == "" && settings.scope == External
    ensures Kept(HttpUrls(ext), None, settings, site) == HttpUrls(ext)
    ensures Kept(HttpUrls(bl), None, settings, site) == HttpUrls(bl)
  {
    EntriesEmpty();
    TestPairs(site, ext, bl);
    ExternalKinds(site);
    BlacklistedKinds(site);
    KeptOnHostsAll(ext, ExternalHosts, None, settings, site);
    KeptOnHostsAll(bl, BlacklistedHosts, None, settings, site);
  }

  /** Kept parts that add up to a duplicate-free list are what getLinks returns. */
  lemma GetLinksOfParts(ext: seq<(string, string)>, bl: seq<(string, string)>, rels: seq<string>, uns: seq<string>,
                        base: Option<string>, settings: Settings, site: Site,
                        a: seq<string>, b: seq<string>, c: seq<string>, d: seq<string>)
    requires Kept(HttpUrls(ext), base, settings, site) == a
    requires Kept(HttpUrls(bl), base, settings, site) == b
    requires Kept(rels, base, settings, site) == c
    requires Kept(uns, base, settings, site) == d
    requires NoDup(a + b + c + d)
    ensures GetLinks(TestUrls(ext, bl, rels, uns), base, settings, site) == a + b + c + d
  {
    KeptTestUrls(ext, bl, rels, uns, base, settings, site);
    GetLinksDistinct(TestUrls(ext, bl, rels, uns), base, settings, site);
  }

  lemma EmptyTail<T>(a: seq<T>, b: seq<T>, c: seq<T>, d: seq<T>)
    requires c == [] && d == []
    ensures a + b + c + d == a + b
  {
  }

  /** The parts of the test list under the external settings. */
  lemma ExternalParts(site: Site, settings: Settings, ext: seq<(string, string)>, bl: seq<(string, string)>, rels: seq<string>, uns: seq<string>)
    requires TestSite(site) && TestLists(ext, bl, rels, uns)
    requires settings.blacklist == "" && settings.scope == External
    ensures Kept(HttpUrls(ext), None, settings, site) == HttpUrls(ext)
    ensures Kept(HttpUrls(bl), None, settings, site) == HttpUrls(bl)
    ensures Kept(rels, None, settings, site) == []
    ensures Kept(uns, None, settings, site) == []
    ensures NoDup(HttpUrls(ext) + HttpUrls(bl))
  {
    ExternalAbsoluteKept(site, settings, ext, bl);
    RelativeNoBase(rels, settings, site);
    KeptUnsupported(uns, None, settings, site);
    AbsoluteUrlsDistinct(site, ext, bl);
  }

  /**
   * External links only, no blacklist, no base: exactly the 9 external and
   * the 17 example.* URLs, in the list's order.
   */
  lemma ExternalUrlsScenario(site: Site, settings: Settings, ext: seq<(string, string)>, bl: seq<(string, string)>, rels: seq<string>, uns: seq<string>)
    requires TestSite(site) && TestLists(ext, bl, rels, uns)
    requires settings.blacklist == "" && settings.scope == External
    ensures GetLinks(TestUrls(ext, bl, rels, uns), None, settings, site) == HttpUrls(ext) + HttpUrls(bl)
    ensures |GetLinks(TestUrls(ext, bl, rels, uns), None, settings, site)| == |ext| + |bl| == 26
  {
    ExternalParts(site, settings, ext, bl, rels, uns);
    var a, b := HttpUrls(ext), HttpUrls(bl);
    EmptyTail(a, b, [], []);
    GetLinksOfParts(ext, bl, rels, uns, None, settings, site, a, b, [], []);

  }

  /** The relative references against the test base yield the expected pages. */
  lemma RelativeWithBase(rels: seq<string>, site: Site, f1: string, f2: string, settings: Settings)
    requires RelativeSetting(site, f1, f2, settings) && Same(rels, RefTexts)
    ensures Kept(rels, Some(TestBase(site, f1, f2)), settings, site) == Pages(site, ExpectedSegs(f1))
  {
    assert rels == RefTexts;
    var segss :| segss == RefSegs;
    var outs :| outs == ExpectedSegs(f1);
    RelativeRefsText(segss, rels);
    KeptRelativeRefs(site, f1, f2, settings, segss, outs);
  }

  /** With no blacklist, the site's own pages are internal links. */
  lemma SiteInternal(site: Site, settings: Settings)
    requires TestSite(site) && settings.blacklist == ""
    ensures HostKind(site.host, Entries(settings.blacklist), site) == InternalLink
  {
    EntriesEmpty();
  }

  /** The test's blacklist leaves the site's own pages internal links. */
  lemma SiteNotBlacklisted(site: Site, settings: Settings)
    requires TestSite(site) && Entries(settings.blacklist) == BlacklistEntries
    ensures HostKind(site.host, Entries(settings.blacklist), site) == InternalLink
  {
  }

  /** Internal links only, no blacklist: no absolute URL of the test is kept. */
  lemma InternalAbsoluteDropped(site: Site, settings: Settings, base: Option<string>, ext: seq<(string, string)>, bl: seq<(string, string)>)
    requires TestSite(site) && Same(ext, ExternalPairs) && Same(bl, BlacklistedPairs)
    requires settings.blacklist == "" && settings.scope == Internal
    ensures Kept(HttpUrls(ext), base, settings, site) == []
    ensures Kept(HttpUrls(bl), base, settings, site) == []
  {
    EntriesEmpty();
    TestPairs(site, ext, bl);
    ExternalKinds(site);
    BlacklistedKinds(site);
    KeptOnHostsNone(ext, ExternalHosts, base, settings, site);
    KeptOnHostsNone(bl, BlacklistedHosts, base, settings, site);
  }

  /** The parts of the test list under the internal settings. */
  lemma InternalParts(site: Site, f1: string, f2: string, settings: Settings,
                      ext: seq<(string, string)>, bl: seq<(string, string)>, rels: seq<string>, uns: seq<string>)
    requires TestSite(site) && MachineName(f1, 10) && MachineName(f2, 5) && TestLists(ext, bl, rels, uns)
    requires settings.blacklist == "" && settings.scope == Internal
    ensures Kept(HttpUrls(ext), Some(TestBase(site, f1, f2)), settings, site) == []
    ensures Kept(HttpUrls(bl), Some(TestBase(site, f1, f2)), settings, site) == []
    ensures Kept(rels, Some(TestBase(site, f1, f2)), settings, site) == Pages(site, ExpectedSegs(f1))
    ensures Kept(uns, Some(TestBase(site, f1, f2)), settings, site) == []
  {
    InternalAbsoluteDropped(site, settings, Some(TestBase(site, f1, f2)), ext, bl);
    SiteInternal(site, settings);
    RelativeWithBase(rels, site, f1, f2, settings);
    KeptUnsupported(uns, Some(TestBase(site, f1, f2)), settings, site);
  }

  /**
   * Internal links only, no blacklist, the base `<site>/<f1>/<f2>`: exactly
   * the 16 pages the relative references resolve to, in the list's order.
   */
  lemma RelativeUrlsScenario(site: Site, f1: string, f2: string, settings: Settings,
                             ext: seq<(string, string)>, bl: seq<(string, string)>, rels: seq<string>, uns: seq<string>)
    requires TestSite(site) && MachineName(f1, 10) && MachineName(f2, 5) && TestLists(ext, bl, rels, uns)
    requires settings.blacklist == "" && settings.scope == Internal
    ensures GetLinks(TestUrls(ext, bl, rels, uns), Some(TestBase(site, f1, f2)), settings, site) == Pages(site, ExpectedSegs(f1))
    ensures |GetLinks(TestUrls(ext, bl, rels, uns), Some(TestBase(site, f1, f2)), settings, site)| == |rels| == 16
  {
    InternalParts(site, f1, f2, settings, ext, bl, rels, uns);
    ExpectedPagesDistinct(site, f1);
    var c := Pages(site, ExpectedSegs(f1));
    EmptyHead(c);
    GetLinksOfParts(ext, bl, rels, uns, Some(TestBase(site, f1, f2)), settings, site, [], [], c, []);
  }

  lemma EmptyHead<T>(c: seq<T>)
    ensures [] + [] + c + [] == c
  {
  }

  /** The blacklist setting of the test: the three example domains, one per line. */
  const BlacklistSetting: string := "example.com\nexample.net\nexample.org"

  /** The test's blacklist setting holds the three example domains. */
  lemma BlacklistSettingIs(setting: string)
    requires setting == BlacklistSetting
    ensures Entries(setting) == BlacklistEntries
  {
    BlacklistSettingText();
    BlacklistSettingEntries();
  }

  /** All links, the example.* blacklist: the external URLs are kept and the example.* ones dropped. */
  lemma BlacklistAbsolute(site: Site, settings: Settings, base: Option<string>, ext: seq<(string, string)>, bl: seq<(string, string)>)
    requires TestSite(site) && Same(ext, ExternalPairs) && Same(bl, BlacklistedPairs)
    requires Entries(settings.blacklist) == BlacklistEntries && settings.scope == All
    ensures Kept(HttpUrls(ext), base, settings, site) == HttpUrls(ext)
    ensures Kept(HttpUrls(bl), base, settings, site) == []
  {
    TestPairs(site, ext, bl);
    ExternalKinds(site);
    BlacklistedKinds(site);
    KeptOnHostsAll(ext, ExternalHosts, base, settings, site);
    KeptOnHostsNone(bl, BlacklistedHosts, base, settings, site);
  }

  /** The http URLs of pairs on the given hosts are on those hosts. */
  lemma UrlsOnHosts(pairs: seq<(string, string)>, hosts: set<string>)
    requires HostsOk(pairs)
    requires forall p :: p in pairs ==> p.0 in hosts
    ensures forall x :: x in HttpUrls(pairs) ==> HostOf(x).Some? && HostOf(x).value in hosts
  {
    forall x | x in HttpUrls(pairs)
      ensures HostOf(x).Some? && HostOf(x).value in hosts
    {
      var i :| 0 <= i < |pairs| && HttpUrls(pairs)[i] == x;
      assert pairs[i] in pairs;
      HttpHost(pairs[i].0, pairs[i].1);
    }
  }

  /** Every site page is on the site's host. */
  lemma PagesOnSite(site: Site, outs: seq<seq<string>>)
    requires ValidSite(site)
    ensures forall y :: y in Pages(site, outs) ==> HostOf(y) == Some(site.host)
  {
    forall y | y in Pages(site, outs)
      ensures HostOf(y) == Some(site.host)
    {
      var j :| 0 <= j < |outs| && Pages(site, outs)[j] == y;
      PageHost(site, outs[j]);
    }
  }

  /** The external URLs and the site's pages are on different hosts, so they are all distinct. */
  lemma ExternalAndPagesDistinct(site: Site, ext: seq<(string, string)>, outs: seq<seq<string>>)
    requires TestSite(site) && Same(ext, ExternalPairs)
    requires NoDup(Pages(site, outs))
    ensures NoDup(HttpUrls(ext) + Pages(site, outs))
  {
    ExternalUrlsOk(site, ext);
    UrlsOnHosts(ext, ExternalHosts);
    PagesOnSite(site, outs);
    NoDupAppend(HttpUrls(ext), Pages(site, outs));
  }

  /** The external URLs are distinct and on the external hosts. */
  lemma ExternalUrlsOk(site: Site, ext: seq<(string, string)>)
    requires TestSite(site) && Same(ext, ExternalPairs)
    ensures HostsOk(ext) && NoDup(HttpUrls(ext))
    ensures forall p :: p in ext ==> p.0 in ExternalHosts
  {
    ExternalPairsOk(site, ext);
    assert ext == ExternalPairs;
    ExtNoDup();
    HttpUrlsNoDup(ext);
  }

  /** The parts of the test list under the blacklist settings. */
  lemma BlacklistParts(site: Site, f1: string, f2: string, settings: Settings,
                       ext: seq<(string, string)>, bl: seq<(string, string)>, rels: seq<string>, uns: seq<string>)
    requires TestSite(site) && MachineName(f1, 10) && MachineName(f2, 5) && TestLists(ext, bl, rels, uns)
    requires Entries(settings.blacklist) == BlacklistEntries && settings.scope == All
    ensures Kept(HttpUrls(ext), Some(TestBase(site, f1, f2)), settings, site) == HttpUrls(ext)
    ensures Kept(HttpUrls(bl), Some(TestBase(site, f1, f2)), settings, site) == []
    ensures Kept(rels, Some(TestBase(site, f1, f2)), settings, site) == Pages(site, ExpectedSegs(f1))
    ensures Kept(uns, Some(TestBase(site, f1, f2)), settings, site) == []
  {
    BlacklistAbsolute(site, settings, Some(TestBase(site, f1, f2)), ext, bl);
    SiteNotBlacklisted(site, settings);
    RelativeWithBase(rels, site, f1, f2, settings);
    KeptUnsupported(uns, Some(TestBase(site, f1, f2)), settings, site);
  }

  /** The external URLs and the expected pages are 25 distinct URLs. */
  lemma BlacklistDistinct(site: Site, f1: string, ext: seq<(string, string)>)
    requires TestSite(site) && MachineName(f1, 10) && Same(ext, ExternalPairs)
    ensures NoDup(HttpUrls(ext) + Pages(site, ExpectedSegs(f1)))
  {
    ExpectedPagesDistinct(site, f1);
    ExternalAndPagesDistinct(site, ext, ExpectedSegs(f1));
  }

  /** Every example.* URL of the test is on a host the test's blacklist names. */
  lemma BlacklistedUrlsBlacklisted(site: Site, bl: seq<(string, string)>)
    requires TestSite(site) && Same(bl, BlacklistedPairs)
    ensures forall u :: u in HttpUrls(bl) ==> HostOf(u).Some? && HostBlacklisted(HostOf(u).value, BlacklistEntries)
  {
    BlacklistedPairsOk(site, bl);
    UrlsOnHosts(bl, BlacklistedHosts);
    forall h | h in BlacklistedHosts
      ensures HostBlacklisted(h, BlacklistEntries)
    {
      BlacklistedHostKinds(site, h);
    }
  }

  /**
   * All links, the example.* blacklist, the base `<site>/<f1>/<f2>`: the 9
   * external URLs and the 16 pages, that is the whole list but its 17
   * example.* and 3 unsupported URLs; no blacklisted or unsupported URL is
   * returned.
   */
  lemma BlacklistedUrlsScenario(site: Site, f1: string, f2: string, settings: Settings,
                                ext: seq<(string, string)>, bl: seq<(string, string)>, rels: seq<string>, uns: seq<string>)
    requires TestSite(site) && MachineName(f1, 10) && MachineName(f2, 5) && TestLists(ext, bl, rels, uns)
    requires settings.blacklist == BlacklistSetting && settings.scope == All
    ensures GetLinks(TestUrls(ext, bl, rels, uns), Some(TestBase(site, f1, f2)), settings, site) == HttpUrls(ext) + Pages(site, ExpectedSegs(f1))
    ensures |GetLinks(TestUrls(ext, bl, rels, uns), Some(TestBase(site, f1, f2)), settings, site)|
         == |TestUrls(ext, bl, rels, uns)| - |bl| - |uns| == 25
    ensures forall u :: u in HttpUrls(bl) ==> u !in GetLinks(TestUrls(ext, bl, rels, uns), Some(TestBase(site, f1, f2)), settings, site)
    ensures forall u :: u in uns ==> u !in GetLinks(TestUrls(ext, bl, rels, uns), Some(TestBase(site, f1, f2)), settings, site)
  {
    BlacklistSettingIs(settings.blacklist);
    BlacklistParts(site, f1, f2, settings, ext, bl, rels, uns);
    BlacklistDistinct(site, f1, ext);
    var a, c := HttpUrls(ext), Pages(site, ExpectedSegs(f1));
    EmptyMiddle(a, c);
    GetLinksOfParts(ext, bl, rels, uns, Some(TestBase(site, f1, f2)), settings, site, a, [], c, []);
    var raws, base := TestUrls(ext, bl, rels, uns), Some(TestBase(site, f1, f2));
    BlacklistedUrlsBlacklisted(site, bl);
    forall u | u in HttpUrls(bl)
      ensures u !in GetLinks(raws, base, settings, site)
    {
      if u in GetLinks(raws, base, settings, site) {
        GetLinksSupported(raws, base, settings, site, u);
      }
    }
    UnsupportedNotHttp(uns);
    forall u | u in uns
      ensures u !in GetLinks(raws, base, settings, site)
    {
      if u in GetLinks(raws, base, settings, site) {
        GetLinksSupported(raws, base, settings, site, u);
      }
    }
  }

  lemma EmptyMiddle<T>(a: seq<T>, c: seq<T>)
    ensures a + [] + c + [] == a + c
  {
  }
}
