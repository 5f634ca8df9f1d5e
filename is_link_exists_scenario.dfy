/*
 * The isLinkExists scenario of the service's kernel test: a content item
 * whose body holds three anchors, four stored links into its body, and the
 * answers under four settings and after the item is deleted.
 */
module ExistsScenario {
  import opened Wrappers
  import opened Sequences
  import opened Strings
  import opened UrlResolver
  import opened HtmlLinkExtractor
  import opened ExtractorService
  import opened ServiceFixture
  import opened ServiceScenarios

  /** Anchors `<a href="h"></a>`, one per URL, in order. */
  function Anchors(hrefs: seq<string>): seq<Token>
  {
    if hrefs == [] then [] else [StartTag("a", map["href" := hrefs[0]]), EndTag("a")] + Anchors(hrefs[1..])
  }

  /** The candidates of a run of anchors: each href, as a link of category `a`. */
  function AnchorUrls(hrefs: seq<string>): seq<RawUrl>
  {
    if hrefs == [] then [] else [RawUrl(FromA, hrefs[0])] + AnchorUrls(hrefs[1..])
  }

  lemma {:induction false} AnchorCandidates(hrefs: seq<string>)
    ensures Candidates(Anchors(hrefs), Top) == AnchorUrls(hrefs)
    decreases |hrefs|
  {
    if hrefs != [] {
      var s, e, rest := StartTag("a", map["href" := hrefs[0]]), EndTag("a"), Anchors(hrefs[1..]);
      var ts := Anchors(hrefs);
      assert ts == [s, e] + rest;
      assert ts[0] == s && ts[1..] == [e] + rest;
      assert TokenUrls(s, Top) == [RawUrl(FromA, hrefs[0])];
      assert Step(s, Top) == Inside("a", Top);
      assert ([e] + rest)[0] == e && ([e] + rest)[1..] == rest;
      assert Step(e, Inside("a", Top)) == Top;
      assert Candidates([e] + rest, Inside("a", Top)) == Candidates(rest, Top);
      AnchorCandidates(hrefs[1..]);
    }
  }

  lemma {:induction false} SelectAnchors(hrefs: seq<string>, enabled: set<Category>)
    requires FromA in enabled
    ensures Select(AnchorUrls(hrefs), enabled) == hrefs
    decreases |hrefs|
  {
    if hrefs != [] {
      var cs := AnchorUrls(hrefs);
      assert cs[0] == RawUrl(FromA, hrefs[0]) && cs[1..] == AnchorUrls(hrefs[1..]);
      SelectAnchors(hrefs[1..], enabled);
      assert hrefs == [hrefs[0]] + hrefs[1..];
    }
  }

  /** With anchors enabled, the extractor returns the anchors' distinct hrefs as they are. */
  lemma ExtractAnchors(hrefs: seq<string>, enabled: set<Category>)
    requires FromA in enabled && NoDup(hrefs)
    ensures Extract(Anchors(hrefs), enabled) == hrefs
  {
    AnchorCandidates(hrefs);
    SelectAnchors(hrefs, enabled);
    FreshIdentity(hrefs, {});
  }

  /** The URLs of the test. */
  const Existing: string := Web("https", "existing.com", "")
  const NotExisting: string := Web("https", "not-existing.com", "")
  const ExampleExisting: string := Web("https", "example.com", "/existing")
  const LocalRef: string := "/existing.local"

  /** The site's page `/existing.local`. */
  function Local(site: Site): string
  {
    SiteUrl(site) + LocalRef
  }

  /** The anchors of the content item's body, as written. */
  const BodyHrefs: seq<string> := [Existing, ExampleExisting, LocalRef]

  /** The test's content item, at `url`. */
  function TestNode(url: string): Node
  {
    Node(url, map["body" := Anchors(BodyHrefs)])
  }

  /** The four stored links of the test, all into the body of the item `id`. */
  function TestLinks(site: Site, id: nat): seq<Link>
  {
    [Link(Existing, id, "body"), Link(NotExisting, id, "body"), Link(ExampleExisting, id, "body"), Link(Local(site), id, "body")]
  }

  /** Whether each link is live, in order. */
  function CheckMap(nodes: map<nat, Node>, settings: Settings, site: Site, links: seq<Link>): (r: seq<bool>)
    ensures |r| == |links|
  {
    if links == [] then [] else [Live(nodes, settings, site, links[0])] + CheckMap(nodes, settings, site, links[1..])
  }

  /** Entry `i` of the map is whether link `i` is live. */
  lemma {:induction false} CheckMapLive(nodes: map<nat, Node>, settings: Settings, site: Site, links: seq<Link>)
    ensures forall i :: 0 <= i < |links| ==> CheckMap(nodes, settings, site, links)[i] == Live(nodes, settings, site, links[i])
    decreases |links|
  {
    if links != [] {
      CheckMapLive(nodes, settings, site, links[1..]);
    }
  }

  /** Checking one more link appends its answer. */
  lemma {:induction false} CheckMapSnoc(nodes: map<nat, Node>, settings: Settings, site: Site, links: seq<Link>, b: bool)
    requires links != []
    requires b == Live(nodes, settings, site, links[|links| - 1])
    ensures CheckMap(nodes, settings, site, links) == CheckMap(nodes, settings, site, links[..|links| - 1]) + [b]
    decreases |links|
  {
    if |links| > 1 {
      CheckMapSnoc(nodes, settings, site, links[1..], b);
      assert links[1..][..|links| - 2] == links[..|links| - 1][1..];
    }
  }

  /** A site the scenario runs on: none of the test's hosts, and not under example.com. */
  predicate ExistsSite(site: Site)
  {
    && ValidSite(site)
    && site.host !in {"existing.com", "not-existing.com", "example.com"}
    && !EndsWith(site.host, "example.com")
  }

  lemma LocalPath()
    ensures Path(["existing.local"]) == LocalRef
  {
    assert ["existing.local"][1..] == [];
  }

  lemma ExistingHost()
    ensures HostOf(Existing) == Some("existing.com")
  {
    HttpScheme();
    HostOfWeb("https", "existing.com", "");
  }

  lemma NotExistingHost()
    ensures HostOf(NotExisting) == Some("not-existing.com")
  {
    HttpScheme();
    HostOfWeb("https", "not-existing.com", "");
  }

  lemma ExampleExistingHost()
    ensures HostOf(ExampleExisting) == Some("example.com")
  {
    HttpScheme();
    HostOfWeb("https", "example.com", "/existing");
  }

  lemma LocalHost(site: Site)
    requires ValidSite(site)
    ensures HostOf(Local(site)) == Some(site.host)
  {
    LocalPath();
    PageHost(site, ["existing.local"]);
  }

  /** The site's page is none of the test's three absolute URLs. */
  lemma LocalDistinct(site: Site)
    requires ExistsSite(site)
    ensures Local(site) != Existing && Local(site) != NotExisting && Local(site) != ExampleExisting
  {
    LocalHost(site);
    ExistingHost();
    NotExistingHost();
    ExampleExistingHost();
  }

  lemma BodyDistinct()
    ensures NoDup(BodyHrefs)
  {
  }

  /** The kind of each of the body's hosts, with the empty blacklist and with example.com. */
  lemma BodyKinds(site: Site)
    requires ExistsSite(site)
    ensures HostKind("existing.com", [], site) == ExternalLink
    ensures HostKind("existing.com", ["example.com"], site) == ExternalLink
    ensures HostKind("example.com", [], site) == ExternalLink
    ensures HostKind("example.com", ["example.com"], site) == Blacklisted
    ensures HostKind(site.host, [], site) == InternalLink
    ensures HostKind(site.host, ["example.com"], site) == InternalLink
  {
    MissingCharNotSuffix("existing.com", "example.com", 'a');
    assert EndsWith("example.com", "example.com");
  }

  /** The example.com setting blacklists example.com alone. */
  lemma ExampleComSetting(setting: string)
    requires setting == "example.com"
    ensures Entries(setting) == ["example.com"]
  {
    EntriesOfLines([setting]);
  }

  /** The body's root-relative anchor resolves to the site's page, whatever the base. */
  lemma LocalResolves(base: Option<string>, site: Site)
    ensures Resolve(LocalRef, base, site) == Some(Local(site))
  {
    assert LocalRef[0] == '/' && LocalRef[1] == 'e';
  }

  /** What each anchor of the body contributes. */
  lemma BodyKeeps(site: Site, base: Option<string>, settings: Settings)
    requires ValidSite(site)
    ensures Keep(Existing, base, settings, site)
         == if InScope(HostKind("existing.com", Entries(settings.blacklist), site), settings.scope) then [Existing] else []
    ensures Keep(ExampleExisting, base, settings, site)
         == if InScope(HostKind("example.com", Entries(settings.blacklist), site), settings.scope) then [ExampleExisting] else []
    ensures Keep(LocalRef, base, settings, site) == if AdmitsSite(settings, site) then [Local(site)] else []
  {
    KeepWeb("https", "existing.com", "", base, settings, site);
    KeepWeb("https", "example.com", "/existing", base, settings, site);
    LocalPath();
    LocalResolves(base, site);
    ClassifySitePage(site, ["existing.local"], Entries(settings.blacklist));
  }

  lemma KeptThree(a: string, b: string, c: string, base: Option<string>, settings: Settings, site: Site)
    ensures Kept([a, b, c], base, settings, site) == Keep(a, base, settings, site) + Keep(b, base, settings, site) + Keep(c, base, settings, site)
  {
    assert [a, b, c][1..] == [b, c] && [b, c][1..] == [c] && [c][1..] == [];
    assert Kept([c], base, settings, site) == Keep(c, base, settings, site);
    assert Kept([b, c], base, settings, site) == Keep(b, base, settings, site) + Keep(c, base, settings, site);
  }

  /**
   * A link into the body of the test's item is live exactly when one of the
   * body's anchors yields its URL under the settings.
   */
  lemma LiveInBody(nodes: map<nat, Node>, settings: Settings, site: Site, id: nat, url: string, u: string)
    requires id in nodes && nodes[id] == TestNode(url) && FromA in settings.enabled
    ensures Live(nodes, settings, site, Link(u, id, "body"))
        <==> u in Keep(Existing, Some(url), settings, site) + Keep(ExampleExisting, Some(url), settings, site) + Keep(LocalRef, Some(url), settings, site)
  {
    BodyDistinct();
    ExtractAnchors(BodyHrefs, settings.enabled);
    KeptThree(Existing, ExampleExisting, LocalRef, Some(url), settings, site);
  }

  /** The preconditions of the per-link lemmas: the item `id` is the test's, and anchors are extracted. */
  predicate Stored(nodes: map<nat, Node>, settings: Settings, site: Site, id: nat, url: string)
  {
    ExistsSite(site) && id in nodes && nodes[id] == TestNode(url) && FromA in settings.enabled
  }

  /** `https://existing.com` is live exactly when its host is in scope. */
  lemma LiveExisting(nodes: map<nat, Node>, settings: Settings, site: Site, id: nat, url: string)
    requires Stored(nodes, settings, site, id, url)
    ensures Live(nodes, settings, site, Link(Existing, id, "body"))
        <==> InScope(HostKind("existing.com", Entries(settings.blacklist), site), settings.scope)
  {
    LiveInBody(nodes, settings, site, id, url, Existing);
    BodyKeeps(site, Some(url), settings);
    LocalDistinct(site);
  }

  /** `https://not-existing.com` is in no anchor of the body, so it is never live. */
  lemma DeadNotExisting(nodes: map<nat, Node>, settings: Settings, site: Site, id: nat, url: string)
    requires Stored(nodes, settings, site, id, url)
    ensures !Live(nodes, settings, site, Link(NotExisting, id, "body"))
  {
    LiveInBody(nodes, settings, site, id, url, NotExisting);
    BodyKeeps(site, Some(url), settings);
    LocalDistinct(site);
  }

  /** `https://example.com/existing` is live exactly when its host is in scope. */
  lemma LiveExampleExisting(nodes: map<nat, Node>, settings: Settings, site: Site, id: nat, url: string)
    requires Stored(nodes, settings, site, id, url)
    ensures Live(nodes, settings, site, Link(ExampleExisting, id, "body"))
        <==> InScope(HostKind("example.com", Entries(settings.blacklist), site), settings.scope)
  {
    LiveInBody(nodes, settings, site, id, url, ExampleExisting);
    BodyKeeps(site, Some(url), settings);
    LocalDistinct(site);
  }

  /** The site's page `/existing.local` is live exactly when the site's own host is in scope. */
  lemma LiveLocal(nodes: map<nat, Node>, settings: Settings, site: Site, id: nat, url: string)
    requires Stored(nodes, settings, site, id, url)
    ensures Live(nodes, settings, site, Link(Local(site), id, "body")) <==> AdmitsSite(settings, site)
  {
    LiveInBody(nodes, settings, site, id, url, Local(site));
    BodyKeeps(site, Some(url), settings);
    LocalDistinct(site);
  }

  /** The answers for the four links under any settings, in terms of the hosts' kinds. */
  lemma TestChecks(nodes: map<nat, Node>, settings: Settings, site: Site, id: nat, url: string)
    requires Stored(nodes, settings, site, id, url)
    ensures CheckMap(nodes, settings, site, TestLinks(site, id))
         == [ InScope(HostKind("existing.com", Entries(settings.blacklist), site), settings.scope), false,
              InScope(HostKind("example.com", Entries(settings.blacklist), site), settings.scope), AdmitsSite(settings, site) ]
  {
    CheckMapLive(nodes, settings, site, TestLinks(site, id));
    LiveExisting(nodes, settings, site, id, url);
    DeadNotExisting(nodes, settings, site, id, url);
    LiveExampleExisting(nodes, settings, site, id, url);
    LiveLocal(nodes, settings, site, id, url);
  }

  /** No blacklist, every scope: all but the vanished URL are live. */
  lemma TableOpen(nodes: map<nat, Node>, settings: Settings, site: Site, id: nat, url: string)
    requires Stored(nodes, settings, site, id, url)
    requires settings.blacklist == "" && settings.scope == All
    ensures CheckMap(nodes, settings, site, TestLinks(site, id)) == [true, false, true, true]
  {
    TestChecks(nodes, settings, site, id, url);
    EntriesEmpty();
    BodyKinds(site);
  }

  /** example.com blacklisted, every scope: the example.com URL is no longer live. */
  lemma TableBlacklisted(nodes: map<nat, Node>, settings: Settings, site: Site, id: nat, url: string)
    requires Stored(nodes, settings, site, id, url)
    requires settings.blacklist == "example.com" && settings.scope == All
    ensures CheckMap(nodes, settings, site, TestLinks(site, id)) == [true, false, false, true]
  {
    TestChecks(nodes, settings, site, id, url);
    ExampleComSetting(settings.blacklist);
    BodyKinds(site);
  }

  /** example.com blacklisted, external links only: the site's own page is not live either. */
  lemma TableExternal(nodes: map<nat, Node>, settings: Settings, site: Site, id: nat, url: string)
    requires Stored(nodes, settings, site, id, url)
    requires settings.blacklist == "example.com" && settings.scope == External
    ensures CheckMap(nodes, settings, site, TestLinks(site, id)) == [true, false, false, false]
  {
    TestChecks(nodes, settings, site, id, url);
    ExampleComSetting(settings.blacklist);
    BodyKinds(site);
  }

  /** example.com blacklisted, internal links only: only the site's own page is live. */
  lemma TableInternal(nodes: map<nat, Node>, settings: Settings, site: Site, id: nat, url: string)
    requires Stored(nodes, settings, site, id, url)
    requires settings.blacklist == "example.com" && settings.scope == Internal
    ensures CheckMap(nodes, settings, site, TestLinks(site, id)) == [false, false, false, true]
  {
    TestChecks(nodes, settings, site, id, url);
    ExampleComSetting(settings.blacklist);
    BodyKinds(site);
  }

  /** Once the item is gone, none of its links is live, whatever the settings. */
  lemma {:induction false} TableDeleted(nodes: map<nat, Node>, settings: Settings, site: Site, id: nat, links: seq<Link>)
    requires id !in nodes
    requires forall i :: 0 <= i < |links| ==> links[i].entity == id
    ensures CheckMap(nodes, settings, site, links) == seq(|links|, _ => false)
    decreases |links|
  {
    if links != [] {
      TableDeleted(nodes, settings, site, id, links[1..]);
    }
  }

  /** The table once the test's item is deleted. */
  lemma TableGone(nodes: map<nat, Node>, settings: Settings, site: Site, id: nat)
    requires id !in nodes
    ensures CheckMap(nodes, settings, site, TestLinks(site, id)) == [false, false, false, false]
  {
    var links := TestLinks(site, id);
    TableDeleted(nodes, settings, site, id, links);
    assert seq(|links|, _ => false) == [false, false, false, false];
  }

  /** Asks the service about each link in turn. */
  method CheckLinks(service: LinkExtractorService, links: seq<Link>) returns (r: seq<bool>)
    ensures r == CheckMap(service.nodes, service.settings, service.site, links)
  {
    r := [];
    var i := 0;
    while i < |links|
      invariant 0 <= i <= |links|
      invariant r == CheckMap(service.nodes, service.settings, service.site, links[..i])
    {
      var b := service.IsLinkExists(links[i]);
      assert links[..i + 1][..i] == links[..i];
      CheckMapSnoc(service.nodes, service.settings, service.site, links[..i + 1], b);
      r := r + [b];
      i := i + 1;
    }
    assert links[..i] == links;
  }

  /** Saves `settings` and asks about the test's links of item 1. */
  method CheckUnder(service: LinkExtractorService, settings: Settings) returns (r: seq<bool>)
    modifies service
    ensures service.settings == settings && service.nodes == old(service.nodes)
    ensures r == CheckMap(service.nodes, settings, service.site, TestLinks(service.site, 1))
  {
    service.SaveSettings(settings);
    r := CheckLinks(service, TestLinks(service.site, 1));
  }

  /**
   * `testIsExists`: store the item, then ask about its four links under the
   * four settings, and once more after the item is deleted.
   */
  method TestIsExists(site: Site, url: string, enabled: set<Category>) returns (maps: seq<seq<bool>>)
    requires ExistsSite(site) && FromA in enabled
    ensures maps == [[true, false, true, true], [true, false, false, true], [true, false, false, false],
                     [false, false, false, true], [false, false, false, false]]
  {
    var service := new LinkExtractorService(site, Settings("", All, enabled));
    service.SaveNode(1, TestNode(url));

    var open := CheckUnder(service, Settings("", All, enabled));
    TableOpen(service.nodes, service.settings, site, 1, url);

    var blacklisted := CheckUnder(service, Settings("example.com", All, enabled));
    TableBlacklisted(service.nodes, service.settings, site, 1, url);

    var external := CheckUnder(service, Settings("example.com", External, enabled));
    TableExternal(service.nodes, service.settings, site, 1, url);

    var internal := CheckUnder(service, Settings("example.com", Internal, enabled));
    TableInternal(service.nodes, service.settings, site, 1, url);

    service.DeleteNode(1);
    var deleted := CheckUnder(service, Settings("", All, enabled));
    TableGone(service.nodes, service.settings, site, 1);

    maps := [open, blacklisted, external, internal, deleted];
  }
}
