/*
 * Helpers for the getLinks and isLinkExists scenarios of the service's
 * kernel test: its URL lists, the hosts' kinds and the expected resolutions,
 * on a site whose host and base path are parameters.
 */
module ServiceFixture {
  import opened Wrappers
  import opened Sequences
  import opened Strings
  import opened UrlResolver
  import opened HtmlLinkExtractor
  import opened ExtractorService

  /** The absolute URL `scheme://host` followed by `rest`. */
  function Web(scheme: string, host: string, rest: string): string
  {
    scheme + "://" + host + rest
  }

  /** The kind of a URL on `host`, by the blacklist first and the site's host second. */
  function HostKind(host: string, entries: seq<string>, site: Site): Kind
  {
    if HostBlacklisted(host, entries) then Blacklisted
    else if host == site.host then InternalLink
    else ExternalLink
  }

  /** An http or https URL on a host is classified by its host alone. */
  lemma ClassifyWeb(scheme: string, host: string, rest: string, entries: seq<string>, site: Site)
    requires scheme in {"http", "https"} && HostChars(host)
    requires rest == [] || rest[0] in AuthorityEnd
    ensures Classify(Web(scheme, host, rest), entries, site) == HostKind(host, entries, site)
  {
    assert ValidScheme(scheme);
    ParseOrigin(scheme, host, rest);
  }

  /** An absolute URL is kept as it is exactly when its host's kind is in scope. */
  lemma KeepWeb(scheme: string, host: string, rest: string, base: Option<string>, settings: Settings, site: Site)
    requires scheme in {"http", "https"} && HostChars(host)
    requires rest == [] || rest[0] in AuthorityEnd
    ensures Keep(Web(scheme, host, rest), base, settings, site)
         == if InScope(HostKind(host, Entries(settings.blacklist), site), settings.scope) then [Web(scheme, host, rest)] else []
  {
    var u := Web(scheme, host, rest);
    assert ValidScheme(scheme);
    assert u == scheme + ":" + ("//" + host + rest);
    SchemeOfPrefix(scheme, "//" + host + rest);
    ClassifyWeb(scheme, host, rest, Entries(settings.blacklist), site);
  }

  /** A composed URL's scheme is the scheme it starts with. */
  lemma ComposedScheme(p: Parts)
    requires ValidScheme(p.scheme)
    ensures SchemeOf(Compose(p)) == Some(p.scheme)
  {
    var tail := "//" + p.authority + p.path + p.rest;
    assert Compose(p) == p.scheme + ":" + tail;
    SchemeOfPrefix(p.scheme, tail);
  }

  /** A URL whose scheme is neither http nor https is not an http URL. */
  lemma OtherSchemeNotHttp(url: string, scheme: string)
    requires SchemeOf(url) == Some(scheme) && scheme !in {"http", "https"}
    ensures !IsHttp(url)
  {
    if Parse(url).Some? {
      ComposedScheme(Parse(url).value);
    }
  }

  /** A page under the site is the site's own absolute URL. */
  lemma SitePageIsWeb(site: Site, page: seq<string>)
    ensures SiteUrl(site) + Path(page) == Web(site.scheme, site.host, Path(site.basePath + page))
  {
    PathAppend(site.basePath, page);
  }

  /** A page under the site is classified as the site's host is. */
  lemma ClassifySitePage(site: Site, page: seq<string>, entries: seq<string>)
    requires ValidSite(site)
    ensures Classify(SiteUrl(site) + Path(page), entries, site) == HostKind(site.host, entries, site)
  {
    SitePageIsWeb(site, page);
    var p := Path(site.basePath + page);
    assert p == [] || p[0] == '/';
    ClassifyWeb(site.scheme, site.host, p, entries, site);
  }

  /** `http://host/path`. */
  function HttpUrl(host: string, path: string): string
  {
    Web("http", host, "/" + path)
  }

  /** The http URLs of (host, path) pairs, in order. */
  function HttpUrls(pairs: seq<(string, string)>): (r: seq<string>)
    ensures |r| == |pairs|
    ensures forall i :: 0 <= i < |pairs| ==> r[i] == HttpUrl(pairs[i].0, pairs[i].1)
  {
    if pairs == [] then [] else [HttpUrl(pairs[0].0, pairs[0].1)] + HttpUrls(pairs[1..])
  }

  /** The external URLs of the test, as (host, path) pairs. */
  const ExternalPairs: seq<(string, string)> := [
    ("www.lagrandeepicerie.fr", "#e-boutique/Les_produits_du_moment,2/coffret_vins_doux_naturels,149"),
    ("wetterservice.msn.de", "phclip.swf?zip=60329&ort=Frankfurt"),
    ("www.msn.de", ""),
    ("www.adobe.com", ""),
    ("www.apple.com", "qtactivex/qtplugin.cab"),
    ("www.theora.org", "cortado.jar"),
    ("v2v.cc", "~j/theora_testsuite/pixel_aspect_ratio.ogg"),
    ("v2v.cc", "~j/theora_testsuite/pixel_aspect_ratio.mov"),
    ("v2v.cc", "~j/theora_testsuite/320x240.ogg")
  ]

  /** The example.net, example.org and example.com URLs of the test, as (host, path) pairs. */
  const BlacklistedPairs: seq<(string, string)> := [
    ("example.net", "video/foo1.mov"),
    ("example.net", "video/foo2.mov"),
    ("example.net", "video/foo3.mov"),
    ("example.org", "video/foo1.mp4"),
    ("example.org", "video/foo2.mp4"),
    ("example.org", "video/foo3.mp4"),
    ("example.org", "video/foo4.mp4"),
    ("example.org", "video/foo5.mp4"),
    ("example.org", "video/foo6.mp4"),
    ("example.org", "video/player1.swf"),
    ("example.org", "video/player2.swf"),
    ("example.org", "video/player3.swf"),
    ("example.com", "iframe/"),
    ("example.com", "foo bar/is_valid-hack.test"),
    ("example.com", "ajax.html#key1=value1&key2=value2"),
    ("example.com", "test.html#test"),
    ("example.com", "test.html#test%20ABC")
  ]

  const ExternalHosts: set<string> := {"www.lagrandeepicerie.fr", "wetterservice.msn.de", "www.msn.de", "www.adobe.com", "www.apple.com", "www.theora.org", "v2v.cc"}

  const BlacklistedHosts: set<string> := {"example.net", "example.org", "example.com"}

  lemma ExtNoDup() ensures NoDup(ExternalPairs) {}
  lemma BlNoDup() ensures NoDup(BlacklistedPairs) {}
  lemma ExtHosts() ensures forall p :: p in ExternalPairs ==> p.0 in ExternalHosts {}
  lemma BlHosts() ensures forall p :: p in BlacklistedPairs ==> p.0 in BlacklistedHosts {}

  /** The blacklist of the blacklist scenario, one host per line. */
  const BlacklistEntries: seq<string> := ["example.com", "example.net", "example.org"]

  lemma BlacklistSettingText()
    ensures Join(BlacklistEntries, '\n') == "example.com\nexample.net\nexample.org"
  {
  }

  lemma BlacklistSettingEntries()
    ensures Entries(Join(BlacklistEntries, '\n')) == BlacklistEntries
  {
    EntriesOfLines(BlacklistEntries);
  }

  /** An empty setting blacklists nothing. */
  lemma EntriesEmpty()
    ensures Entries("") == []
  {
    assert Split("", '\n') == [""];
  }

  /**
   * The site the scenarios run on: a valid site whose host is none of the
   * test's external hosts and is not blacklisted by the test's blacklist.
   */
  predicate TestSite(site: Site)
  {
    && ValidSite(site)
    && site.host !in ExternalHosts
    && !HostBlacklisted(site.host, BlacklistEntries)
  }

  lemma ExternalHostKinds(site: Site, h: string)
    requires TestSite(site) && h in ExternalHosts
    ensures HostChars(h)
    ensures HostKind(h, [], site) == ExternalLink
    ensures HostKind(h, BlacklistEntries, site) == ExternalLink
  {
    ExternalHostChars();
    ExternalHostsAreHosts();
    forall e | e in BlacklistEntries
      ensures !EndsWith(h, e)
    {
      MissingCharNotSuffix(h, e, 'x');
    }
  }

  /** No external host holds an `x`, which every blacklist entry holds. */
  lemma ExternalHostChars()
    ensures forall h :: h in ExternalHosts ==> 'x' !in h
    ensures forall e :: e in BlacklistEntries ==> 'x' in e
  {
  }

  lemma ExternalHostsAreHosts()
    ensures forall h :: h in ExternalHosts ==> HostChars(h)
  {
  }

  lemma BlacklistedHostKinds(site: Site, h: string)
    requires TestSite(site) && h in BlacklistedHosts
    ensures HostChars(h)
    ensures HostKind(h, [], site) == ExternalLink
    ensures HostKind(h, BlacklistEntries, site) == Blacklisted
  {
    assert h in BlacklistEntries && EndsWith(h, h);
  }

  /** The host of `scheme://host rest`. */
  lemma HostOfWeb(scheme: string, host: string, rest: string)
    requires ValidScheme(scheme) && HostChars(host)
    requires rest == [] || rest[0] in AuthorityEnd
    ensures HostOf(Web(scheme, host, rest)) == Some(host)
  {
    ParseOrigin(scheme, host, rest);
  }

  /** Different hosts or paths give different http URLs. */
  lemma HttpUrlInjective(h1: string, p1: string, h2: string, p2: string)
    requires HostChars(h1) && HostChars(h2)
    requires HttpUrl(h1, p1) == HttpUrl(h2, p2)
    ensures h1 == h2 && p1 == p2
  {
    HttpHost(h1, p1);
    HttpHost(h2, p2);
    PrefixCancel("http" + "://" + h1 + "/", p1, p2);
  }

  lemma HttpHost(h: string, p: string)
    requires HostChars(h)
    ensures HostOf(HttpUrl(h, p)) == Some(h)
    ensures HttpUrl(h, p) == ("http" + "://" + h + "/") + p
  {
    HttpScheme();
    HostOfWeb("http", h, "/" + p);
  }

  lemma HttpScheme()
    ensures ValidScheme("http") && ValidScheme("https")
  {
  }

  lemma PrefixCancel(a: string, p1: string, p2: string)
    requires a + p1 == a + p2
    ensures p1 == p2
  {
    assert (a + p1)[|a|..] == p1;
  }

  /** Every pair's host is a host: it holds no `/`, `?` or `#`. */
  predicate HostsOk(pairs: seq<(string, string)>)
  {
    forall p :: p in pairs ==> HostChars(p.0)
  }

  /** Distinct pairs give distinct URLs. */
  lemma HttpUrlsNoDup(pairs: seq<(string, string)>)
    requires NoDup(pairs) && HostsOk(pairs)
    ensures NoDup(HttpUrls(pairs))
  {
    var r := HttpUrls(pairs);
    forall i, j | 0 <= i < j < |r|
      ensures r[i] != r[j]
    {
      assert pairs[i] in pairs && pairs[j] in pairs;
      if r[i] == r[j] {
        HttpUrlInjective(pairs[i].0, pairs[i].1, pairs[j].0, pairs[j].1);
      }
    }
  }

  /** http URLs on hosts the settings admit are all kept, in order. */
  lemma {:induction false} KeptHttpAll(pairs: seq<(string, string)>, base: Option<string>, settings: Settings, site: Site)
    requires HostsOk(pairs)
    requires forall p :: p in pairs ==> InScope(HostKind(p.0, Entries(settings.blacklist), site), settings.scope)
    ensures Kept(HttpUrls(pairs), base, settings, site) == HttpUrls(pairs)
    decreases |pairs|
  {
    if pairs != [] {
      assert pairs[0] in pairs;
      KeepWeb("http", pairs[0].0, "/" + pairs[0].1, base, settings, site);
      assert HttpUrls(pairs)[1..] == HttpUrls(pairs[1..]);
      assert forall p :: p in pairs[1..] ==> p in pairs;
      KeptHttpAll(pairs[1..], base, settings, site);
    }
  }

  /** http URLs on hosts the settings reject are all dropped. */
  lemma {:induction false} KeptHttpNone(pairs: seq<(string, string)>, base: Option<string>, settings: Settings, site: Site)
    requires HostsOk(pairs)
    requires forall p :: p in pairs ==> !InScope(HostKind(p.0, Entries(settings.blacklist), site), settings.scope)
    ensures Kept(HttpUrls(pairs), base, settings, site) == []
    decreases |pairs|
  {
    if pairs != [] {
      assert pairs[0] in pairs;
      KeepWeb("http", pairs[0].0, "/" + pairs[0].1, base, settings, site);
      assert HttpUrls(pairs)[1..] == HttpUrls(pairs[1..]);
      assert forall p :: p in pairs[1..] ==> p in pairs;
      KeptHttpNone(pairs[1..], base, settings, site);
    }
  }

  /** The test's folder names: `n` letters and digits. */
  predicate MachineName(f: string, n: nat)
  {
    |f| == n && forall i :: 0 <= i < |f| ==> 'a' <= f[i] <= 'z' || 'A' <= f[i] <= 'Z' || '0' <= f[i] <= '9'
  }

  /** A machine name is a plain path segment. */
  lemma MachineNameSegment(f: string, n: nat)
    requires MachineName(f, n) && n >= 3
    ensures '/' !in f && '?' !in f && '#' !in f && ':' !in f
    ensures f != "." && f != ".."
  {
    forall c | c in f
      ensures c != '/' && c != '?' && c != '#' && c != ':'
    {
      var i :| 0 <= i < |f| && f[i] == c;
    }
  }

  /**
   * The relative references of the test, in the test's order, as their
   * `/`-separated segments; the root-relative one starts with an empty
   * segment.
   */
  const RefSegs: seq<seq<string>> := [
    ["..", "foo1", "test.png"],
    ["", "foo2", "test.png"],
    ["test.png"],
    ["..", "foo1", "bar1"],
    [".", "foo2", "bar2"],
    ["..", "foo3", "..", "foo4", "foo5"],
    [".", "foo4", "..", "foo5", "foo6"],
    [".", "foo4", ".", "foo5", "foo6"],
    [".", "test", "foo bar", "is_valid-hack.test"],
    ["flash.png"],
    ["ritmo.mid"],
    ["my_ogg_video.ogg"],
    ["video.ogv"],
    ["flvplayer1.swf"],
    ["flvplayer2.swf"],
    ["foo.ogg"]
  ]

  /** The relative references as the test writes them. */
  const RefTexts: seq<string> := [
    "../foo1/test.png",
    "/foo2/test.png",
    "test.png",
    "../foo1/bar1",
    "./foo2/bar2",
    "../foo3/../foo4/foo5",
    "./foo4/../foo5/foo6",
    "./foo4/./foo5/foo6",
    "./test/foo bar/is_valid-hack.test",
    "flash.png",
    "ritmo.mid",
    "my_ogg_video.ogg",
    "video.ogv",
    "flvplayer1.swf",
    "flvplayer2.swf",
    "foo.ogg"
  ]

  /** Joins each segment list with `/`. */
  function JoinAll(segss: seq<seq<string>>): (r: seq<string>)
    requires forall i :: 0 <= i < |segss| ==> segss[i] != []
    ensures |r| == |segss|
    ensures forall i :: 0 <= i < |segss| ==> r[i] == Join(segss[i], '/')
  {
    if segss == [] then [] else [Join(segss[0], '/')] + JoinAll(segss[1..])
  }

  /** The references' segments join into the test's references. */
  lemma RelativeRefsText(segss: seq<seq<string>>, texts: seq<string>)
    requires segss == RefSegs && texts == RefTexts
    ensures JoinAll(segss) == texts
  {
    JoinedRefs(segss);
  }

  lemma JoinedRefs(segss: seq<seq<string>>)
    requires segss == RefSegs
    ensures |segss| == |RefTexts|
    ensures forall i :: 0 <= i < |segss| ==> Join(segss[i], '/') == RefTexts[i]
  {
    forall i | 0 <= i < |segss|
      ensures Join(segss[i], '/') == RefTexts[i]
    {
      if i < 4 {
        RefTextsA(segss, i);
      } else if i < 8 {
        RefTextsB(segss, i);
      } else if i < 12 {
        RefTextsC(segss, i);
      } else {
        RefTextsD(segss, i);
      }
    }
  }

  lemma RefTextsA(segss: seq<seq<string>>, i: int)
    requires segss == RefSegs && 0 <= i < 4
    ensures Join(segss[i], '/') == RefTexts[i]
  {
    if i == 0 {
      RefText00(segss[0]);
    } else if i == 1 {
      RefText01(segss[1]);
    } else if i == 2 {
      RefText02(segss[2]);
    } else {
      RefText03(segss[3]);
    }
  }

  lemma RefTextsB(segss: seq<seq<string>>, i: int)
    requires segss == RefSegs && 4 <= i < 8
    ensures Join(segss[i], '/') == RefTexts[i]
  {
    if i == 4 {
      RefText04(segss[4]);
    } else if i == 5 {
      RefText05(segss[5]);
    } else if i == 6 {
      RefText06(segss[6]);
    } else {
      RefText07(segss[7]);
    }
  }

  lemma RefTextsC(segss: seq<seq<string>>, i: int)
    requires segss == RefSegs && 8 <= i < 12
    ensures Join(segss[i], '/') == RefTexts[i]
  {
    if i == 8 {
      RefText08(segss[8]);
    } else if i == 9 {
      RefText09(segss[9]);
    } else if i == 10 {
      RefText10(segss[10]);
    } else {
      RefText11(segss[11]);
    }
  }

  lemma RefTextsD(segss: seq<seq<string>>, i: int)
    requires segss == RefSegs && 12 <= i < 16
    ensures Join(segss[i], '/') == RefTexts[i]
  {
    if i == 12 {
      RefText12(segss[12]);
    } else if i == 13 {
      RefText13(segss[13]);
    } else if i == 14 {
      RefText14(segss[14]);
    } else {
      RefText15(segss[15]);
    }
  }

  // Fixture plumbing: one lemma per relative reference of the test list, each
  // proving that its segments join to the reference's text. Each holds a single
  // literal-string equality so that no proof reasons about all sixteen at once.
  lemma RefText00(segs: seq<string>)
    requires segs == ["..", "foo1", "test.png"]
    ensures Join(segs, '/') == "../foo1/test.png"
  {
    assert segs == [segs[0], segs[1], segs[2]];
    JoinThree(segs[0], segs[1], segs[2], '/');
    assert "../foo1/test.png" == ".." + "/" + ("foo1" + "/" + "test.png");
  }

  lemma RefText01(segs: seq<string>)
    requires segs == ["", "foo2", "test.png"]
    ensures Join(segs, '/') == "/foo2/test.png"
  {
    assert segs == [segs[0], segs[1], segs[2]];
    JoinThree(segs[0], segs[1], segs[2], '/');
    assert "/foo2/test.png" == "" + "/" + ("foo2" + "/" + "test.png");
  }

  lemma RefText02(segs: seq<string>)
    requires segs == ["test.png"]
    ensures Join(segs, '/') == "test.png"
  {
  }

  lemma RefText03(segs: seq<string>)
    requires segs == ["..", "foo1", "bar1"]
    ensures Join(segs, '/') == "../foo1/bar1"
  {
    assert segs == [segs[0], segs[1], segs[2]];
    JoinThree(segs[0], segs[1], segs[2], '/');
    assert "../foo1/bar1" == ".." + "/" + ("foo1" + "/" + "bar1");
  }

  lemma RefText04(segs: seq<string>)
    requires segs == [".", "foo2", "bar2"]
    ensures Join(segs, '/') == "./foo2/bar2"
  {
    assert segs == [segs[0], segs[1], segs[2]];
    JoinThree(segs[0], segs[1], segs[2], '/');
    assert "./foo2/bar2" == "." + "/" + ("foo2" + "/" + "bar2");
  }

  lemma RefText05(segs: seq<string>)
    requires segs == ["..", "foo3", "..", "foo4", "foo5"]
    ensures Join(segs, '/') == "../foo3/../foo4/foo5"
  {
    assert segs == [segs[0], segs[1], segs[2], segs[3], segs[4]];
    JoinFive(segs[0], segs[1], segs[2], segs[3], segs[4], '/');
    assert "../foo3/../foo4/foo5" == ".." + "/" + ("foo3" + "/" + (".." + "/" + ("foo4" + "/" + "foo5")));
  }

  lemma RefText06(segs: seq<string>)
    requires segs == [".", "foo4", "..", "foo5", "foo6"]
    ensures Join(segs, '/') == "./foo4/../foo5/foo6"
  {
    assert segs == [segs[0], segs[1], segs[2], segs[3], segs[4]];
    JoinFive(segs[0], segs[1], segs[2], segs[3], segs[4], '/');
    assert "./foo4/../foo5/foo6" == "." + "/" + ("foo4" + "/" + (".." + "/" + ("foo5" + "/" + "foo6")));
  }

  lemma RefText07(segs: seq<string>)
    requires segs == [".", "foo4", ".", "foo5", "foo6"]
    ensures Join(segs, '/') == "./foo4/./foo5/foo6"
  {
    assert segs == [segs[0], segs[1], segs[2], segs[3], segs[4]];
    JoinFive(segs[0], segs[1], segs[2], segs[3], segs[4], '/');
    assert "./foo4/./foo5/foo6" == "." + "/" + ("foo4" + "/" + ("." + "/" + ("foo5" + "/" + "foo6")));
  }

  lemma RefText08(segs: seq<string>)
    requires segs == [".", "test", "foo bar", "is_valid-hack.test"]
    ensures Join(segs, '/') == "./test/foo bar/is_valid-hack.test"
  {
    assert segs == [segs[0], segs[1], segs[2], segs[3]];
    JoinFour(segs[0], segs[1], segs[2], segs[3], '/');
    LongSegmentText();
    LongRefText();
    DotTestPrefix("foo bar/is_valid-hack.test");
  }

  lemma RefText09(segs: seq<string>)
    requires segs == ["flash.png"]
    ensures Join(segs, '/') == "flash.png"
  {
  }

  lemma RefText10(segs: seq<string>)
    requires segs == ["ritmo.mid"]
    ensures Join(segs, '/') == "ritmo.mid"
  {
  }

  lemma RefText11(segs: seq<string>)
    requires segs == ["my_ogg_video.ogg"]
    ensures Join(segs, '/') == "my_ogg_video.ogg"
  {
  }

  lemma RefText12(segs: seq<string>)
    requires segs == ["video.ogv"]
    ensures Join(segs, '/') == "video.ogv"
  {
  }

  lemma RefText13(segs: seq<string>)
    requires segs == ["flvplayer1.swf"]
    ensures Join(segs, '/') == "flvplayer1.swf"
  {
  }

  lemma RefText14(segs: seq<string>)
    requires segs == ["flvplayer2.swf"]
    ensures Join(segs, '/') == "flvplayer2.swf"
  {
  }

  lemma RefText15(segs: seq<string>)
    requires segs == ["foo.ogg"]
    ensures Join(segs, '/') == "foo.ogg"
  {
  }

  lemma LongSegmentText()
    ensures "foo bar" + "/" + "is_valid-hack.test" == "foo bar/is_valid-hack.test"
  {
  }

  lemma LongRefText()
    ensures "./test/" + "foo bar/is_valid-hack.test" == "./test/foo bar/is_valid-hack.test"
  {
  }

  lemma DotTestPrefix(x: string)
    ensures "." + "/" + ("test" + "/" + x) == "./test/" + x
  {
  }

  lemma JoinThree(a: string, b: string, c: string, sep: char)
    ensures Join([a, b, c], sep) == a + [sep] + (b + [sep] + c)
  {
    assert [a, b, c][1..] == [b, c] && [b, c][1..] == [c];
    assert Join([b, c], sep) == b + [sep] + c;
  }

  lemma JoinFive(a: string, b: string, c: string, d: string, e: string, sep: char)
    ensures Join([a, b, c, d, e], sep) == a + [sep] + (b + [sep] + (c + [sep] + (d + [sep] + e)))
  {
    assert [a, b, c, d, e][1..] == [b, c, d, e];
    JoinFour(b, c, d, e, sep);
    assert Join([a, b, c, d, e], sep) == a + [sep] + Join([b, c, d, e], sep);
  }

  lemma JoinFour(a: string, b: string, c: string, d: string, sep: char)
    ensures Join([a, b, c, d], sep) == a + [sep] + (b + [sep] + (c + [sep] + d))
  {
    assert [a, b, c, d][1..] == [b, c, d] && [b, c, d][1..] == [c, d] && [c, d][1..] == [d];
    assert Join([c, d], sep) == c + [sep] + d;
    assert Join([b, c, d], sep) == b + [sep] + (c + [sep] + d);
  }

  /** The segments of the pages the relative references resolve to, below the site's base path. */
  function ExpectedSegs(f1: string): seq<seq<string>>
  {
    [
      ["foo1", "test.png"],
      ["foo2", "test.png"],
      [f1, "test.png"],
      ["foo1", "bar1"],
      [f1, "foo2", "bar2"],
      ["foo4", "foo5"],
      [f1, "foo5", "foo6"],
      [f1, "foo4", "foo5", "foo6"],
      [f1, "test", "foo bar", "is_valid-hack.test"],
      [f1, "flash.png"],
      [f1, "ritmo.mid"],
      [f1, "my_ogg_video.ogg"],
      [f1, "video.ogv"],
      [f1, "flvplayer1.swf"],
      [f1, "flvplayer2.swf"],
      [f1, "foo.ogg"]
    ]
  }

  /** The base the relative scenarios resolve against: the site's base URL, then the two folders. */
  function TestBase(site: Site, f1: string, f2: string): string
  {
    SiteUrl(site) + "/" + f1 + "/" + f2
  }

  /** The settings let the site's own pages through. */
  predicate AdmitsSite(settings: Settings, site: Site)
  {
    InScope(HostKind(site.host, Entries(settings.blacklist), site), settings.scope)
  }

  /**
   * A relative path reference in the content item at the test base resolves
   * to the site page the dot removal leaves.
   */
  lemma KeepRelative(site: Site, f1: string, f2: string, segs: seq<string>, out: seq<string>, settings: Settings)
    requires ValidSite(site) && MachineName(f1, 10) && MachineName(f2, 5)
    requires segs != [] && segs[0] != []
    requires forall s :: s in segs ==> '/' !in s && '?' !in s && '#' !in s && ':' !in s
    requires Dots(site.basePath + [f1], segs) == site.basePath + out
    requires AdmitsSite(settings, site)
    ensures Keep(Join(segs, '/'), Some(TestBase(site, f1, f2)), settings, site) == [SiteUrl(site) + Path(out)]
  {
    MachineNameSegment(f1, 10);
    MachineNameSegment(f2, 5);
    assert TestBase(site, f1, f2) == SiteUrl(site) + Path([f1] + [f2]);
    assert DotFree([f1]);
    ResolveUnderSite(site, [f1], f2, segs);
    SitePageIsWeb(site, out);
    ClassifySitePage(site, out, Entries(settings.blacklist));
  }

  /** A root-relative reference is the site page it names, whatever the base. */
  lemma KeepRoot(site: Site, segs: seq<string>, out: seq<string>, base: Option<string>, settings: Settings)
    requires ValidSite(site)
    requires segs == [""] + out && out != [] && out[0] != []
    requires forall s :: s in out ==> '/' !in s && '?' !in s && '#' !in s
    ensures Keep(Join(segs, '/'), base, settings, site)
         == if AdmitsSite(settings, site) then [SiteUrl(site) + Path(out)] else []
  {
    assert segs[1..] == out;
    PathJoin(out);
    assert Join(segs, '/') == Path(out);
    JoinStart(out, '/');
    assert out[0] in out && out[0][0] in out[0];
    ClassifySitePage(site, out, Entries(settings.blacklist));
  }

  /**
   * The shape of the test's relative references: plain segments, the first
   * of them empty only for a root-relative reference.
   */
  predicate RefShape(segs: seq<string>)
  {
    && segs != []
    && (forall s :: s in segs ==> '/' !in s && '?' !in s && '#' !in s && ':' !in s)
    && (segs[0] != [] || (|segs| >= 2 && segs[1] != []))
  }

  /** Without a base, a reference is dropped when only external links are wanted. */
  lemma KeepRefNoBase(segs: seq<string>, settings: Settings, site: Site)
    requires ValidSite(site) && RefShape(segs) && settings.scope == External
    ensures Keep(Join(segs, '/'), None, settings, site) == []
  {
    var ref := Join(segs, '/');
    if segs[0] != [] {
      JoinStart(segs, '/');
      JoinExcludes(segs, '/', {':'});
      NoColonNoScheme(ref);
      assert segs[0] in segs && segs[0][0] in segs[0];
    } else {
      KeepRoot(site, segs, segs[1..], None, settings);
    }
  }

  /** One accepted URL per raw URL, in order, makes the kept list. */
  lemma {:induction false} KeptPointwise(raws: seq<string>, urls: seq<string>, base: Option<string>, settings: Settings, site: Site)
    requires |raws| == |urls|
    requires forall i :: 0 <= i < |raws| ==> Keep(raws[i], base, settings, site) == [urls[i]]
    ensures Kept(raws, base, settings, site) == urls
    decreases |raws|
  {
    if raws != [] {
      KeptPointwise(raws[1..], urls[1..], base, settings, site);
      assert urls == [urls[0]] + urls[1..];
    }
  }

  /** The site pages below the base path with the given segments. */
  function Pages(site: Site, segss: seq<seq<string>>): (r: seq<string>)
    ensures |r| == |segss|
    ensures forall i :: 0 <= i < |segss| ==> r[i] == SiteUrl(site) + Path(segss[i])
  {
    if segss == [] then [] else [SiteUrl(site) + Path(segss[0])] + Pages(site, segss[1..])
  }

  /** Each relative reference in the content item at the test base resolves to its expected page. */
  predicate RelativeSetting(site: Site, f1: string, f2: string, settings: Settings)
  {
    ValidSite(site) && MachineName(f1, 10) && MachineName(f2, 5) && AdmitsSite(settings, site)
  }

  /** The relative references against the test base: each one yields its expected page, in order. */
  lemma KeptRelativeRefs(site: Site, f1: string, f2: string, settings: Settings, segss: seq<seq<string>>, outs: seq<seq<string>>)
    requires RelativeSetting(site, f1, f2, settings)
    requires segss == RefSegs && outs == ExpectedSegs(f1)
    ensures Kept(JoinAll(segss), Some(TestBase(site, f1, f2)), settings, site) == Pages(site, outs)
  {
    RelativePointwise(site, f1, f2, settings, segss, outs);
    RefSegsNonEmpty(segss);
    KeptJoined(segss, outs, Some(TestBase(site, f1, f2)), settings, site);
  }

  lemma RefSegsNonEmpty(segss: seq<seq<string>>)
    requires segss == RefSegs
    ensures forall i :: 0 <= i < |segss| ==> segss[i] != []
  {
  }

  /** References that each yield their site page make the list of those pages. */
  lemma KeptJoined(segss: seq<seq<string>>, outs: seq<seq<string>>, base: Option<string>, settings: Settings, site: Site)
    requires |segss| == |outs|
    requires forall i :: 0 <= i < |segss| ==> segss[i] != []
    requires forall i :: 0 <= i < |segss| ==> Keep(Join(segss[i], '/'), base, settings, site) == [SiteUrl(site) + Path(outs[i])]
    ensures Kept(JoinAll(segss), base, settings, site) == Pages(site, outs)
  {
    KeptPointwise(JoinAll(segss), Pages(site, outs), base, settings, site);
  }

  lemma RelativePointwise(site: Site, f1: string, f2: string, settings: Settings, segss: seq<seq<string>>, outs: seq<seq<string>>)
    requires RelativeSetting(site, f1, f2, settings)
    requires segss == RefSegs && outs == ExpectedSegs(f1)
    ensures |segss| == |outs|
    ensures forall i :: 0 <= i < |segss| ==> Keep(Join(segss[i], '/'), Some(TestBase(site, f1, f2)), settings, site) == [SiteUrl(site) + Path(outs[i])]
  {
    forall i | 0 <= i < |segss|
      ensures Keep(Join(segss[i], '/'), Some(TestBase(site, f1, f2)), settings, site) == [SiteUrl(site) + Path(outs[i])]
    {
      if i < 4 {
        KeepRelativeA(site, f1, f2, settings, segss, outs, i);
      } else if i < 8 {
        KeepRelativeB(site, f1, f2, settings, segss, outs, i);
      } else if i < 12 {
        KeepRelativeC(site, f1, f2, settings, segss, outs, i);
      } else {
        KeepRelativeD(site, f1, f2, settings, segss, outs, i);
      }
    }
  }

  lemma KeepRelativeA(site: Site, f1: string, f2: string, settings: Settings, segss: seq<seq<string>>, outs: seq<seq<string>>, i: int)
    requires RelativeSetting(site, f1, f2, settings)
    requires segss == RefSegs && outs == ExpectedSegs(f1) && 0 <= i < 4
    ensures Keep(Join(segss[i], '/'), Some(TestBase(site, f1, f2)), settings, site) == [SiteUrl(site) + Path(outs[i])]
  {
    if i == 0 {
      KeepRef00(site, f1, f2, settings, segss[0], outs[0]);
    } else if i == 1 {
      KeepRef01(site, f1, f2, settings, segss[1], outs[1]);
    } else if i == 2 {
      KeepRef02(site, f1, f2, settings, segss[2], outs[2]);
    } else {
      KeepRef03(site, f1, f2, settings, segss[3], outs[3]);
    }
  }

  lemma KeepRelativeB(site: Site, f1: string, f2: string, settings: Settings, segss: seq<seq<string>>, outs: seq<seq<string>>, i: int)
    requires RelativeSetting(site, f1, f2, settings)
    requires segss == RefSegs && outs == ExpectedSegs(f1) && 4 <= i < 8
    ensures Keep(Join(segss[i], '/'), Some(TestBase(site, f1, f2)), settings, site) == [SiteUrl(site) + Path(outs[i])]
  {
    if i == 4 {
      KeepRef04(site, f1, f2, settings, segss[4], outs[4]);
    } else if i == 5 {
      KeepRef05(site, f1, f2, settings, segss[5], outs[5]);
    } else if i == 6 {
      KeepRef06(site, f1, f2, settings, segss[6], outs[6]);
    } else {
      KeepRef07(site, f1, f2, settings, segss[7], outs[7]);
    }
  }

  lemma KeepRelativeC(site: Site, f1: string, f2: string, settings: Settings, segss: seq<seq<string>>, outs: seq<seq<string>>, i: int)
    requires RelativeSetting(site, f1, f2, settings)
    requires segss == RefSegs && outs == ExpectedSegs(f1) && 8 <= i < 12
    ensures Keep(Join(segss[i], '/'), Some(TestBase(site, f1, f2)), settings, site) == [SiteUrl(site) + Path(outs[i])]
  {
    if i == 8 {
      KeepRef08(site, f1, f2, settings, segss[8], outs[8]);
    } else if i == 9 {
      KeepRef09(site, f1, f2, settings, segss[9], outs[9]);
    } else if i == 10 {
      KeepRef10(site, f1, f2, settings, segss[10], outs[10]);
    } else {
      KeepRef11(site, f1, f2, settings, segss[11], outs[11]);
    }
  }

  lemma KeepRelativeD(site: Site, f1: string, f2: string, settings: Settings, segss: seq<seq<string>>, outs: seq<seq<string>>, i: int)
    requires RelativeSetting(site, f1, f2, settings)
    requires segss == RefSegs && outs == ExpectedSegs(f1) && 12 <= i < 16
    ensures Keep(Join(segss[i], '/'), Some(TestBase(site, f1, f2)), settings, site) == [SiteUrl(site) + Path(outs[i])]
  {
    if i == 12 {
      KeepRef12(site, f1, f2, settings, segss[12], outs[12]);
    } else if i == 13 {
      KeepRef13(site, f1, f2, settings, segss[13], outs[13]);
    } else if i == 14 {
      KeepRef14(site, f1, f2, settings, segss[14], outs[14]);
    } else {
      KeepRef15(site, f1, f2, settings, segss[15], outs[15]);
    }
  }

  lemma KeepRef00(site: Site, f1: string, f2: string, settings: Settings, segs: seq<string>, out: seq<string>)
    requires RelativeSetting(site, f1, f2, settings)
    requires segs == ["..", "foo1", "test.png"] && out == ["foo1", "test.png"]
    ensures Keep(Join(segs, '/'), Some(TestBase(site, f1, f2)), settings, site) == [SiteUrl(site) + Path(out)]
  {
    MachineNameSegment(f1, 10);
    Dots00(site.basePath, f1);
    Segs00(segs);
    KeepRelative(site, f1, f2, segs, out, settings);
  }

  lemma Segs00(segs: seq<string>)
    requires segs == ["..", "foo1", "test.png"]
    ensures segs != [] && segs[0] != []
    ensures forall s :: s in segs ==> '/' !in s && '?' !in s && '#' !in s && ':' !in s
  {
  }

  lemma Dots00(bp: seq<string>, f1: string)
    requires DotFree(bp) && f1 != "." && f1 != ".."
    ensures Dots(bp + [f1], ["..", "foo1", "test.png"]) == bp + ["foo1", "test.png"]
  {
  }

  lemma KeepRef01(site: Site, f1: string, f2: string, settings: Settings, segs: seq<string>, out: seq<string>)
    requires RelativeSetting(site, f1, f2, settings)
    requires segs == ["", "foo2", "test.png"] && out == ["foo2", "test.png"]
    ensures Keep(Join(segs, '/'), Some(TestBase(site, f1, f2)), settings, site) == [SiteUrl(site) + Path(out)]
  {
    KeepRoot(site, segs, out, Some(TestBase(site, f1, f2)), settings);
  }

  lemma Segs01(segs: seq<string>)
    requires segs == ["", "foo2", "test.png"]
    ensures RefShape(segs)
  {
  }

  lemma KeepRef02(site: Site, f1: string, f2: string, settings: Settings, segs: seq<string>, out: seq<string>)
    requires RelativeSetting(site, f1, f2, settings)
    requires segs == ["test.png"] && out == [f1, "test.png"]
    ensures Keep(Join(segs, '/'), Some(TestBase(site, f1, f2)), settings, site) == [SiteUrl(site) + Path(out)]
  {
    MachineNameSegment(f1, 10);
    Dots02(site.basePath, f1);
    Segs02(segs);
    KeepRelative(site, f1, f2, segs, out, settings);
  }

  lemma Segs02(segs: seq<string>)
    requires segs == ["test.png"]
    ensures segs != [] && segs[0] != []
    ensures forall s :: s in segs ==> '/' !in s && '?' !in s && '#' !in s && ':' !in s
  {
  }

  lemma Dots02(bp: seq<string>, f1: string)
    requires DotFree(bp) && f1 != "." && f1 != ".."
    ensures Dots(bp + [f1], ["test.png"]) == bp + [f1, "test.png"]
  {
  }

  lemma KeepRef03(site: Site, f1: string, f2: string, settings: Settings, segs: seq<string>, out: seq<string>)
    requires RelativeSetting(site, f1, f2, settings)
    requires segs == ["..", "foo1", "bar1"] && out == ["foo1", "bar1"]
    ensures Keep(Join(segs, '/'), Some(TestBase(site, f1, f2)), settings, site) == [SiteUrl(site) + Path(out)]
  {
    MachineNameSegment(f1, 10);
    Dots03(site.basePath, f1);
    Segs03(segs);
    KeepRelative(site, f1, f2, segs, out, settings);
  }

  lemma Segs03(segs: seq<string>)
    requires segs == ["..", "foo1", "bar1"]
    ensures segs != [] && segs[0] != []
    ensures forall s :: s in segs ==> '/' !in s && '?' !in s && '#' !in s && ':' !in s
  {
  }

  lemma Dots03(bp: seq<string>, f1: string)
    requires DotFree(bp) && f1 != "." && f1 != ".."
    ensures Dots(bp + [f1], ["..", "foo1", "bar1"]) == bp + ["foo1", "bar1"]
  {
  }

  lemma KeepRef04(site: Site, f1: string, f2: string, settings: Settings, segs: seq<string>, out: seq<string>)
    requires RelativeSetting(site, f1, f2, settings)
    requires segs == [".", "foo2", "bar2"] && out == [f1, "foo2", "bar2"]
    ensures Keep(Join(segs, '/'), Some(TestBase(site, f1, f2)), settings, site) == [SiteUrl(site) + Path(out)]
  {
    MachineNameSegment(f1, 10);
    Dots04(site.basePath, f1);
    Segs04(segs);
    KeepRelative(site, f1, f2, segs, out, settings);
  }

  lemma Segs04(segs: seq<string>)
    requires segs == [".", "foo2", "bar2"]
    ensures segs != [] && segs[0] != []
    ensures forall s :: s in segs ==> '/' !in s && '?' !in s && '#' !in s && ':' !in s
  {
  }

  lemma Dots04(bp: seq<string>, f1: string)
    requires DotFree(bp) && f1 != "." && f1 != ".."
    ensures Dots(bp + [f1], [".", "foo2", "bar2"]) == bp + [f1, "foo2", "bar2"]
  {
  }

  lemma KeepRef05(site: Site, f1: string, f2: string, settings: Settings, segs: seq<string>, out: seq<string>)
    requires RelativeSetting(site, f1, f2, settings)
    requires segs == ["..", "foo3", "..", "foo4", "foo5"] && out == ["foo4", "foo5"]
    ensures Keep(Join(segs, '/'), Some(TestBase(site, f1, f2)), settings, site) == [SiteUrl(site) + Path(out)]
  {
    MachineNameSegment(f1, 10);
    Dots05(site.basePath, f1);
    Segs05(segs);
    KeepRelative(site, f1, f2, segs, out, settings);
  }

  lemma Segs05(segs: seq<string>)
    requires segs == ["..", "foo3", "..", "foo4", "foo5"]
    ensures segs != [] && segs[0] != []
    ensures forall s :: s in segs ==> '/' !in s && '?' !in s && '#' !in s && ':' !in s
  {
  }

  lemma Dots05(bp: seq<string>, f1: string)
    requires DotFree(bp) && f1 != "." && f1 != ".."
    ensures Dots(bp + [f1], ["..", "foo3", "..", "foo4", "foo5"]) == bp + ["foo4", "foo5"]
  {
  }

  lemma KeepRef06(site: Site, f1: string, f2: string, settings: Settings, segs: seq<string>, out: seq<string>)
    requires RelativeSetting(site, f1, f2, settings)
    requires segs == [".", "foo4", "..", "foo5", "foo6"] && out == [f1, "foo5", "foo6"]
    ensures Keep(Join(segs, '/'), Some(TestBase(site, f1, f2)), settings, site) == [SiteUrl(site) + Path(out)]
  {
    MachineNameSegment(f1, 10);
    Dots06(site.basePath, f1);
    Segs06(segs);
    KeepRelative(site, f1, f2, segs, out, settings);
  }

  lemma Segs06(segs: seq<string>)
    requires segs == [".", "foo4", "..", "foo5", "foo6"]
    ensures segs != [] && segs[0] != []
    ensures forall s :: s in segs ==> '/' !in s && '?' !in s && '#' !in s && ':' !in s
  {
  }

  lemma Dots06(bp: seq<string>, f1: string)
    requires DotFree(bp) && f1 != "." && f1 != ".."
    ensures Dots(bp + [f1], [".", "foo4", "..", "foo5", "foo6"]) == bp + [f1, "foo5", "foo6"]
  {
  }

  lemma KeepRef07(site: Site, f1: string, f2: string, settings: Settings, segs: seq<string>, out: seq<string>)
    requires RelativeSetting(site, f1, f2, settings)
    requires segs == [".", "foo4", ".", "foo5", "foo6"] && out == [f1, "foo4", "foo5", "foo6"]
    ensures Keep(Join(segs, '/'), Some(TestBase(site, f1, f2)), settings, site) == [SiteUrl(site) + Path(out)]
  {
    MachineNameSegment(f1, 10);
    Dots07(site.basePath, f1);
    Segs07(segs);
    KeepRelative(site, f1, f2, segs, out, settings);
  }

  lemma Segs07(segs: seq<string>)
    requires segs == [".", "foo4", ".", "foo5", "foo6"]
    ensures segs != [] && segs[0] != []
    ensures forall s :: s in segs ==> '/' !in s && '?' !in s && '#' !in s && ':' !in s
  {
  }

  lemma Dots07(bp: seq<string>, f1: string)
    requires DotFree(bp) && f1 != "." && f1 != ".."
    ensures Dots(bp + [f1], [".", "foo4", ".", "foo5", "foo6"]) == bp + [f1, "foo4", "foo5", "foo6"]
  {
  }

  lemma KeepRef08(site: Site, f1: string, f2: string, settings: Settings, segs: seq<string>, out: seq<string>)
    requires RelativeSetting(site, f1, f2, settings)
    requires segs == [".", "test", "foo bar", "is_valid-hack.test"] && out == [f1, "test", "foo bar", "is_valid-hack.test"]
    ensures Keep(Join(segs, '/'), Some(TestBase(site, f1, f2)), settings, site) == [SiteUrl(site) + Path(out)]
  {
    MachineNameSegment(f1, 10);
    Dots08(site.basePath, f1);
    Segs08(segs);
    KeepRelative(site, f1, f2, segs, out, settings);
  }

  lemma Segs08(segs: seq<string>)
    requires segs == [".", "test", "foo bar", "is_valid-hack.test"]
    ensures segs != [] && segs[0] != []
    ensures forall s :: s in segs ==> '/' !in s && '?' !in s && '#' !in s && ':' !in s
  {
  }

  lemma Dots08(bp: seq<string>, f1: string)
    requires DotFree(bp) && f1 != "." && f1 != ".."
    ensures Dots(bp + [f1], [".", "test", "foo bar", "is_valid-hack.test"]) == bp + [f1, "test", "foo bar", "is_valid-hack.test"]
  {
  }

  lemma KeepRef09(site: Site, f1: string, f2: string, settings: Settings, segs: seq<string>, out: seq<string>)
    requires RelativeSetting(site, f1, f2, settings)
    requires segs == ["flash.png"] && out == [f1, "flash.png"]
    ensures Keep(Join(segs, '/'), Some(TestBase(site, f1, f2)), settings, site) == [SiteUrl(site) + Path(out)]
  {
    MachineNameSegment(f1, 10);
    Dots09(site.basePath, f1);
    Segs09(segs);
    KeepRelative(site, f1, f2, segs, out, settings);
  }

  lemma Segs09(segs: seq<string>)
    requires segs == ["flash.png"]
    ensures segs != [] && segs[0] != []
    ensures forall s :: s in segs ==> '/' !in s && '?' !in s && '#' !in s && ':' !in s
  {
  }

  lemma Dots09(bp: seq<string>, f1: string)
    requires DotFree(bp) && f1 != "." && f1 != ".."
    ensures Dots(bp + [f1], ["flash.png"]) == bp + [f1, "flash.png"]
  {
  }

  lemma KeepRef10(site: Site, f1: string, f2: string, settings: Settings, segs: seq<string>, out: seq<string>)
    requires RelativeSetting(site, f1, f2, settings)
    requires segs == ["ritmo.mid"] && out == [f1, "ritmo.mid"]
    ensures Keep(Join(segs, '/'), Some(TestBase(site, f1, f2)), settings, site) == [SiteUrl(site) + Path(out)]
  {
    MachineNameSegment(f1, 10);
    Dots10(site.basePath, f1);
    Segs10(segs);
    KeepRelative(site, f1, f2, segs, out, settings);
  }

  lemma Segs10(segs: seq<string>)
    requires segs == ["ritmo.mid"]
    ensures segs != [] && segs[0] != []
    ensures forall s :: s in segs ==> '/' !in s && '?' !in s && '#' !in s && ':' !in s
  {
  }

  lemma Dots10(bp: seq<string>, f1: string)
    requires DotFree(bp) && f1 != "." && f1 != ".."
    ensures Dots(bp + [f1], ["ritmo.mid"]) == bp + [f1, "ritmo.mid"]
  {
  }

  lemma KeepRef11(site: Site, f1: string, f2: string, settings: Settings, segs: seq<string>, out: seq<string>)
    requires RelativeSetting(site, f1, f2, settings)
    requires segs == ["my_ogg_video.ogg"] && out == [f1, "my_ogg_video.ogg"]
    ensures Keep(Join(segs, '/'), Some(TestBase(site, f1, f2)), settings, site) == [SiteUrl(site) + Path(out)]
  {
    MachineNameSegment(f1, 10);
    Dots11(site.basePath, f1);
    Segs11(segs);
    KeepRelative(site, f1, f2, segs, out, settings);
  }

  lemma Segs11(segs: seq<string>)
    requires segs == ["my_ogg_video.ogg"]
    ensures segs != [] && segs[0] != []
    ensures forall s :: s in segs ==> '/' !in s && '?' !in s && '#' !in s && ':' !in s
  {
  }

  lemma Dots11(bp: seq<string>, f1: string)
    requires DotFree(bp) && f1 != "." && f1 != ".."
    ensures Dots(bp + [f1], ["my_ogg_video.ogg"]) == bp + [f1, "my_ogg_video.ogg"]
  {
  }

  lemma KeepRef12(site: Site, f1: string, f2: string, settings: Settings, segs: seq<string>, out: seq<string>)
    requires RelativeSetting(site, f1, f2, settings)
    requires segs == ["video.ogv"] && out == [f1, "video.ogv"]
    ensures Keep(Join(segs, '/'), Some(TestBase(site, f1, f2)), settings, site) == [SiteUrl(site) + Path(out)]
  {
    MachineNameSegment(f1, 10);
    Dots12(site.basePath, f1);
    Segs12(segs);
    KeepRelative(site, f1, f2, segs, out, settings);
  }

  lemma Segs12(segs: seq<string>)
    requires segs == ["video.ogv"]
    ensures segs != [] && segs[0] != []
    ensures forall s :: s in segs ==> '/' !in s && '?' !in s && '#' !in s && ':' !in s
  {
  }

  lemma Dots12(bp: seq<string>, f1: string)
    requires DotFree(bp) && f1 != "." && f1 != ".."
    ensures Dots(bp + [f1], ["video.ogv"]) == bp + [f1, "video.ogv"]
  {
  }

  lemma KeepRef13(site: Site, f1: string, f2: string, settings: Settings, segs: seq<string>, out: seq<string>)
    requires RelativeSetting(site, f1, f2, settings)
    requires segs == ["flvplayer1.swf"] && out == [f1, "flvplayer1.swf"]
    ensures Keep(Join(segs, '/'), Some(TestBase(site, f1, f2)), settings, site) == [SiteUrl(site) + Path(out)]
  {
    MachineNameSegment(f1, 10);
    Dots13(site.basePath, f1);
    Segs13(segs);
    KeepRelative(site, f1, f2, segs, out, settings);
  }

  lemma Segs13(segs: seq<string>)
    requires segs == ["flvplayer1.swf"]
    ensures segs != [] && segs[0] != []
    ensures forall s :: s in segs ==> '/' !in s && '?' !in s && '#' !in s && ':' !in s
  {
  }

  lemma Dots13(bp: seq<string>, f1: string)
    requires DotFree(bp) && f1 != "." && f1 != ".."
    ensures Dots(bp + [f1], ["flvplayer1.swf"]) == bp + [f1, "flvplayer1.swf"]
  {
  }

  lemma KeepRef14(site: Site, f1: string, f2: string, settings: Settings, segs: seq<string>, out: seq<string>)
    requires RelativeSetting(site, f1, f2, settings)
    requires segs == ["flvplayer2.swf"] && out == [f1, "flvplayer2.swf"]
    ensures Keep(Join(segs, '/'), Some(TestBase(site, f1, f2)), settings, site) == [SiteUrl(site) + Path(out)]
  {
    MachineNameSegment(f1, 10);
    Dots14(site.basePath, f1);
    Segs14(segs);
    KeepRelative(site, f1, f2, segs, out, settings);
  }

  lemma Segs14(segs: seq<string>)
    requires segs == ["flvplayer2.swf"]
    ensures segs != [] && segs[0] != []
    ensures forall s :: s in segs ==> '/' !in s && '?' !in s && '#' !in s && ':' !in s
  {
  }

  lemma Dots14(bp: seq<string>, f1: string)
    requires DotFree(bp) && f1 != "." && f1 != ".."
    ensures Dots(bp + [f1], ["flvplayer2.swf"]) == bp + [f1, "flvplayer2.swf"]
  {
  }

  lemma KeepRef15(site: Site, f1: string, f2: string, settings: Settings, segs: seq<string>, out: seq<string>)
    requires RelativeSetting(site, f1, f2, settings)
    requires segs == ["foo.ogg"] && out == [f1, "foo.ogg"]
    ensures Keep(Join(segs, '/'), Some(TestBase(site, f1, f2)), settings, site) == [SiteUrl(site) + Path(out)]
  {
    MachineNameSegment(f1, 10);
    Dots15(site.basePath, f1);
    Segs15(segs);
    KeepRelative(site, f1, f2, segs, out, settings);
  }

  lemma Segs15(segs: seq<string>)
    requires segs == ["foo.ogg"]
    ensures segs != [] && segs[0] != []
    ensures forall s :: s in segs ==> '/' !in s && '?' !in s && '#' !in s && ':' !in s
  {
  }

  lemma Dots15(bp: seq<string>, f1: string)
    requires DotFree(bp) && f1 != "." && f1 != ".."
    ensures Dots(bp + [f1], ["foo.ogg"]) == bp + [f1, "foo.ogg"]
  {
  }

  /** Every relative reference of the test has the shape of one. */
  lemma RefSegsShape(segss: seq<seq<string>>)
    requires segss == RefSegs
    ensures forall i :: 0 <= i < |segss| ==> RefShape(segss[i])
  {
    forall i | 0 <= i < |segss|
      ensures RefShape(segss[i])
    {
      if i < 4 {
        RefShapeA(segss, i);
      } else if i < 8 {
        RefShapeB(segss, i);
      } else if i < 12 {
        RefShapeC(segss, i);
      } else {
        RefShapeD(segss, i);
      }
    }
  }

  lemma RefShapeA(segss: seq<seq<string>>, i: int)
    requires segss == RefSegs && 0 <= i < 4
    ensures RefShape(segss[i])
  {
    if i == 0 {
      Segs00(segss[0]);
    } else if i == 1 {
      Segs01(segss[1]);
    } else if i == 2 {
      Segs02(segss[2]);
    } else {
      Segs03(segss[3]);
    }
  }

  lemma RefShapeB(segss: seq<seq<string>>, i: int)
    requires segss == RefSegs && 4 <= i < 8
    ensures RefShape(segss[i])
  {
    if i == 4 {
      Segs04(segss[4]);
    } else if i == 5 {
      Segs05(segss[5]);
    } else if i == 6 {
      Segs06(segss[6]);
    } else {
      Segs07(segss[7]);
    }
  }

  lemma RefShapeC(segss: seq<seq<string>>, i: int)
    requires segss == RefSegs && 8 <= i < 12
    ensures RefShape(segss[i])
  {
    if i == 8 {
      Segs08(segss[8]);
    } else if i == 9 {
      Segs09(segss[9]);
    } else if i == 10 {
      Segs10(segss[10]);
    } else {
      Segs11(segss[11]);
    }
  }

  lemma RefShapeD(segss: seq<seq<string>>, i: int)
    requires segss == RefSegs && 12 <= i < 16
    ensures RefShape(segss[i])
  {
    if i == 12 {
      Segs12(segss[12]);
    } else if i == 13 {
      Segs13(segss[13]);
    } else if i == 14 {
      Segs14(segss[14]);
    } else {
      Segs15(segss[15]);
    }
  }
}
