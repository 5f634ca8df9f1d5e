/*
 * The link-extractor service: it turns the raw URLs found in content into
 * the links the checker stores (resolved, supported, not blacklisted and in
 * the configured scope, each once), and decides whether a stored link still
 * exists in the field it was found in.
 */
module ExtractorService {
  import opened Wrappers
  import opened Sequences
  import opened Strings
  import opened UrlResolver
  import opened HtmlLinkExtractor

  /** Which links are checked: all of them, only the site's own, or only other hosts'. */
  datatype Scope = All | Internal | External

  /**
   * The settings the service reads: the blacklist (one entry per line), the
   * scope, and the tag categories the HTML extractor is allowed to use.
   */
  datatype Settings = Settings(blacklist: string, scope: Scope, enabled: set<Category>)

  /** A line without its trailing carriage return. */
  function TrimCr(line: string): (r: string)
    ensures |r| <= |line| && r == line[..|r|]
  {
    if line != [] && line[|line| - 1] == '\r' then line[..|line| - 1] else line
  }

  /** The non-empty lines among `lines`, in order. */
  function NonEmptyLines(lines: seq<string>): (r: seq<string>)
    ensures |r| <= |lines|
    ensures forall e :: e in r ==> e != []
  {
    if lines == [] then []
    else
      var rest := NonEmptyLines(lines[1..]);
      if TrimCr(lines[0]) == [] then rest else [TrimCr(lines[0])] + rest
  }

  /** The blacklist entries: the setting's lines, empty lines ignored. */
  function Entries(setting: string): (r: seq<string>)
    ensures forall e :: e in r ==> e != []
  {
    NonEmptyLines(Split(setting, '\n'))
  }

  /** Lines that are already clean are the entries of the setting that joins them. */
  lemma EntriesOfLines(entries: seq<string>)
    requires entries != []
    requires forall e :: e in entries ==> e != [] && '\n' !in e && '\r' !in e
    ensures Entries(Join(entries, '\n')) == entries
  {
    SplitJoin(entries, '\n');
    CleanLines(entries);
  }

  lemma {:induction false} CleanLines(lines: seq<string>)
    requires forall e :: e in lines ==> e != [] && '\r' !in e
    ensures NonEmptyLines(lines) == lines
    decreases |lines|
  {
    if lines != [] {
      assert lines[0] in lines;
      assert lines[0][|lines[0]| - 1] in lines[0];
      assert TrimCr(lines[0]) == lines[0];
      assert forall e :: e in lines[1..] ==> e in lines;
      CleanLines(lines[1..]);
      assert [lines[0]] + lines[1..] == lines;
    }
  }

  /** `s` ends with `suffix` (or equals it). */
  predicate EndsWith(s: string, suffix: string)
  {
    |suffix| <= |s| && s[|s| - |suffix|..] == suffix
  }

  /** A host is blacklisted when it equals or ends with one of the entries. */
  predicate HostBlacklisted(host: string, entries: seq<string>)
  {
    exists e :: e in entries && EndsWith(host, e)
  }

  /** A suffix holding a character the host lacks is not a suffix of it. */
  lemma MissingCharNotSuffix(host: string, suffix: string, c: char)
    requires c in suffix && c !in host
    ensures !EndsWith(host, suffix)
  {
  }

  /** How the checker sees a resolved URL. */
  datatype Kind = Unsupported | Blacklisted | InternalLink | ExternalLink

  /**
   * Classifies a resolved URL: anything but an http or https URL is
   * unsupported, then the blacklist applies, then the host decides between
   * the site's own links and other hosts' links.
   */
  function Classify(url: string, entries: seq<string>, site: Site): (k: Kind)
    ensures k == Unsupported <==> !IsHttp(url)
    ensures k != Unsupported ==> (k == Blacklisted <==> HostBlacklisted(HostOf(url).value, entries))
    ensures k == InternalLink <==> IsHttp(url) && !HostBlacklisted(HostOf(url).value, entries) && HostOf(url) == Some(site.host)
  {
    if !IsHttp(url) then Unsupported
    else
      var host := Parse(url).value.authority;
      if HostBlacklisted(host, entries) then Blacklisted
      else if host == site.host then InternalLink
      else ExternalLink
  }

  /** The scope admits the kind: the site's links unless only external ones are wanted, and vice versa. */
  predicate InScope(k: Kind, scope: Scope)
  {
    (k == InternalLink && scope != External) || (k == ExternalLink && scope != Internal)
  }

  /** `raw` resolves to `url`, which the settings let through. */
  predicate Accepted(raw: string, url: string, base: Option<string>, settings: Settings, site: Site)
  {
    Resolve(raw, base, site) == Some(url)
    && InScope(Classify(url, Entries(settings.blacklist), site), settings.scope)
  }

  /** What one raw URL contributes: its resolution, when the settings let it through. */
  function Keep(raw: string, base: Option<string>, settings: Settings, site: Site): (r: seq<string>)
    ensures |r| <= 1
    ensures forall u :: u in r <==> Accepted(raw, u, base, settings, site)
  {
    match Resolve(raw, base, site)
    case None => []
    case Some(u) => if InScope(Classify(u, Entries(settings.blacklist), site), settings.scope) then [u] else []
  }

  /** The accepted resolutions of `raws`, in order, duplicates included. */
  function Kept(raws: seq<string>, base: Option<string>, settings: Settings, site: Site): (r: seq<string>)
    ensures |r| <= |raws|
  {
    if raws == [] then [] else Keep(raws[0], base, settings, site) + Kept(raws[1..], base, settings, site)
  }

  /** The kept URLs are exactly the accepted resolutions of the raw ones. */
  lemma {:induction false} KeptMembers(raws: seq<string>, base: Option<string>, settings: Settings, site: Site)
    ensures forall u :: u in Kept(raws, base, settings, site) <==> exists raw :: raw in raws && Accepted(raw, u, base, settings, site)
    decreases |raws|
  {
    if raws != [] {
      KeptMembers(raws[1..], base, settings, site);
      assert forall raw :: raw in raws <==> raw == raws[0] || raw in raws[1..];
    }
  }

  /**
   * `getLinks`: the raw URLs resolved against `base` (the content item's
   * URL, when known), with the unsupported, blacklisted and out-of-scope ones
   * dropped and each URL kept once, at its first place.
   */
  function GetLinks(raws: seq<string>, base: Option<string>, settings: Settings, site: Site): (r: seq<string>)
    ensures NoDup(r)
    ensures |r| <= |raws|
    ensures forall u :: u in r <==> exists raw :: raw in raws && Accepted(raw, u, base, settings, site)
  {
    KeptMembers(raws, base, settings, site);
    Unique(Kept(raws, base, settings, site))
  }

  /** When the kept URLs are already distinct, `getLinks` returns them as they are. */
  lemma GetLinksDistinct(raws: seq<string>, base: Option<string>, settings: Settings, site: Site)
    requires NoDup(Kept(raws, base, settings, site))
    ensures GetLinks(raws, base, settings, site) == Kept(raws, base, settings, site)
  {
    FreshIdentity(Kept(raws, base, settings, site), {});
  }

  lemma {:induction false} KeptAppend(a: seq<string>, b: seq<string>, base: Option<string>, settings: Settings, site: Site)
    ensures Kept(a + b, base, settings, site) == Kept(a, base, settings, site) + Kept(b, base, settings, site)
    decreases |a|
  {
    if a == [] {
      assert a + b == b;
    } else {
      assert (a + b)[0] == a[0] && (a + b)[1..] == a[1..] + b;
      KeptAppend(a[1..], b, base, settings, site);
    }
  }

  /** Every returned link is an http or https URL whose host is not blacklisted, and the scope admits it. */
  lemma GetLinksSupported(raws: seq<string>, base: Option<string>, settings: Settings, site: Site, u: string)
    requires u in GetLinks(raws, base, settings, site)
    ensures IsHttp(u)
    ensures !HostBlacklisted(HostOf(u).value, Entries(settings.blacklist))
    ensures settings.scope == Internal ==> HostOf(u) == Some(site.host)
    ensures settings.scope == External ==> HostOf(u) != Some(site.host)
  {
  }

  /** The links of scope All are those of scope Internal together with those of scope External, which share none. */
  lemma ScopePartition(raws: seq<string>, base: Option<string>, blacklist: string, enabled: set<Category>, site: Site)
    ensures forall u :: u in GetLinks(raws, base, Settings(blacklist, All, enabled), site) <==>
      (u in GetLinks(raws, base, Settings(blacklist, Internal, enabled), site)
       || u in GetLinks(raws, base, Settings(blacklist, External, enabled), site))
    ensures forall u :: !(u in GetLinks(raws, base, Settings(blacklist, Internal, enabled), site)
                     && u in GetLinks(raws, base, Settings(blacklist, External, enabled), site))
  {
    var sAll, sInt, sExt := Settings(blacklist, All, enabled), Settings(blacklist, Internal, enabled), Settings(blacklist, External, enabled);
    forall u
      ensures u in GetLinks(raws, base, sAll, site) <==> (u in GetLinks(raws, base, sInt, site) || u in GetLinks(raws, base, sExt, site))
      ensures !(u in GetLinks(raws, base, sInt, site) && u in GetLinks(raws, base, sExt, site))
    {
      if u in GetLinks(raws, base, sAll, site) {
        var raw :| raw in raws && Accepted(raw, u, base, sAll, site);
        AcceptedByScope(raw, u, base, blacklist, enabled, site);
      }
      if u in GetLinks(raws, base, sInt, site) {
        var raw :| raw in raws && Accepted(raw, u, base, sInt, site);
        AcceptedByScope(raw, u, base, blacklist, enabled, site);
      }
      if u in GetLinks(raws, base, sExt, site) {
        var raw :| raw in raws && Accepted(raw, u, base, sExt, site);
        AcceptedByScope(raw, u, base, blacklist, enabled, site);
      }
    }
  }

  /** One raw URL: accepted under All exactly when accepted under Internal or External, never under both. */
  lemma AcceptedByScope(raw: string, u: string, base: Option<string>, blacklist: string, enabled: set<Category>, site: Site)
    ensures Accepted(raw, u, base, Settings(blacklist, All, enabled), site) <==>
      (Accepted(raw, u, base, Settings(blacklist, Internal, enabled), site)
       || Accepted(raw, u, base, Settings(blacklist, External, enabled), site))
    ensures !(Accepted(raw, u, base, Settings(blacklist, Internal, enabled), site)
              && Accepted(raw, u, base, Settings(blacklist, External, enabled), site))
  {}

  /** A longer blacklist only removes links. */
  lemma BlacklistMonotone(raws: seq<string>, base: Option<string>, s1: Settings, s2: Settings, site: Site)
    requires s1.scope == s2.scope
    requires forall e :: e in Entries(s1.blacklist) ==> e in Entries(s2.blacklist)
    ensures forall u :: u in GetLinks(raws, base, s2, site) ==> u in GetLinks(raws, base, s1, site)
  {
    forall u | u in GetLinks(raws, base, s2, site)
      ensures u in GetLinks(raws, base, s1, site)
    {
      var raw :| raw in raws && Accepted(raw, u, base, s2, site);
      assert Accepted(raw, u, base, s1, site);
    }
  }

  /** A list whose every URL is let through unchanged is kept whole. */
  lemma {:induction false} KeptAll(urls: seq<string>, base: Option<string>, settings: Settings, site: Site)
    requires forall u :: u in urls ==> Keep(u, base, settings, site) == [u]
    ensures Kept(urls, base, settings, site) == urls
    decreases |urls|
  {
    if urls != [] {
      var rest := urls[1..];
      forall u | u in rest
        ensures Keep(u, base, settings, site) == [u]
      {
        assert u in urls;
      }
      KeptAll(rest, base, settings, site);
      assert urls[0] in urls;
      KeptCons(urls, base, settings, site);
    }
  }

  /** A list whose head is let through unchanged keeps that head before the rest's links. */
  lemma KeptCons(urls: seq<string>, base: Option<string>, settings: Settings, site: Site)
    requires urls != [] && Keep(urls[0], base, settings, site) == [urls[0]]
    requires Kept(urls[1..], base, settings, site) == urls[1..]
    ensures Kept(urls, base, settings, site) == urls
  {
    HeadTail(urls);
  }

  /** A list whose every URL is dropped contributes nothing. */
  lemma {:induction false} KeptNone(raws: seq<string>, base: Option<string>, settings: Settings, site: Site)
    requires forall raw :: raw in raws ==> Keep(raw, base, settings, site) == []
    ensures Kept(raws, base, settings, site) == []
    decreases |raws|
  {
    if raws != [] {
      assert raws[0] in raws;
      assert forall u :: u in raws[1..] ==> u in raws;
      KeptNone(raws[1..], base, settings, site);
    }
  }

  /** The links returned are returned again when fed back in: `getLinks` is idempotent. */
  lemma GetLinksIdempotent(raws: seq<string>, base: Option<string>, settings: Settings, site: Site)
    requires ValidSite(site)
    ensures GetLinks(GetLinks(raws, base, settings, site), base, settings, site) == GetLinks(raws, base, settings, site)
  {
    var links := GetLinks(raws, base, settings, site);
    forall u | u in links
      ensures Keep(u, base, settings, site) == [u]
    {
      var raw :| raw in raws && Accepted(raw, u, base, settings, site);
      KeepAccepted(raw, u, base, settings, site);
    }
    KeptAll(links, base, settings, site);
    FreshIdentity(links, {});
  }

  /** A URL some raw URL was accepted as is kept again, as itself. */
  lemma KeepAccepted(raw: string, u: string, base: Option<string>, settings: Settings, site: Site)
    requires ValidSite(site)
    requires Accepted(raw, u, base, settings, site)
    ensures Keep(u, base, settings, site) == [u]
  {
    ResolvedIsAbsolute(raw, base, site);
    assert Resolve(u, base, site) == Some(u);
  }

  /** A content item: its URL and its fields' HTML, as tokens. */
  datatype Node = Node(url: string, fields: map<string, seq<Token>>)

  /** A stored link: its URL and the entity and field it was found in. */
  datatype Link = Link(url: string, entity: nat, field: string)

  /** The links of one field under the settings: its HTML's URLs, resolved against the item's URL, filtered. */
  function FieldLinks(node: Node, field: string, settings: Settings, site: Site): seq<string>
    requires field in node.fields
  {
    GetLinks(Extract(node.fields[field], settings.enabled), Some(node.url), settings, site)
  }

  /** A stored link still exists: its entity and field are there and the field still yields its URL. */
  predicate Live(nodes: map<nat, Node>, settings: Settings, site: Site, link: Link)
  {
    && link.entity in nodes
    && link.field in nodes[link.entity].fields
    && link.url in FieldLinks(nodes[link.entity], link.field, settings, site)
  }

  /**
   * A link is live exactly when its entity and field exist, some URL in the
   * field resolves to it, it is an http or https URL that is not blacklisted,
   * and the scope admits it.
   */
  lemma LiveConditions(nodes: map<nat, Node>, settings: Settings, site: Site, link: Link)
    ensures Live(nodes, settings, site, link) <==>
      && link.entity in nodes
      && link.field in nodes[link.entity].fields
      && (exists raw :: raw in Extract(nodes[link.entity].fields[link.field], settings.enabled)
                     && Resolve(raw, Some(nodes[link.entity].url), site) == Some(link.url))
      && IsHttp(link.url)
      && !HostBlacklisted(HostOf(link.url).value, Entries(settings.blacklist))
      && InScope(Classify(link.url, Entries(settings.blacklist), site), settings.scope)
  {
  }

  /** Looks for `url` among `urls`, front to back. */
  method Contains(urls: seq<string>, url: string) returns (found: bool)
    ensures found <==> url in urls
  {
    var i := 0;
    while i < |urls|
      invariant 0 <= i <= |urls|
      invariant url !in urls[..i]
    {
      if urls[i] == url {
        return true;
      }
      assert urls[..i + 1] == urls[..i] + [urls[i]];
      i := i + 1;
    }
    assert urls[..i] == urls;
    return false;
  }

  /** The service: the settings it reads and the content items it can load. */
  class LinkExtractorService {
    const site: Site
    var settings: Settings
    var nodes: map<nat, Node>

    constructor(site: Site, settings: Settings)
      ensures this.site == site && this.settings == settings && nodes == map[]
    {
      this.site := site;
      this.settings := settings;
      nodes := map[];
    }

    /** Saves new settings; the content is unchanged. */
    method SaveSettings(settings: Settings)
      modifies this
      ensures this.settings == settings && nodes == old(nodes)
    {
      this.settings := settings;
    }

    /** Saves a content item under `id`. */
    method SaveNode(id: nat, node: Node)
      modifies this
      ensures nodes == old(nodes)[id := node] && settings == old(settings)
    {
      nodes := nodes[id := node];
    }

    /** Deletes the content item `id`. */
    method DeleteNode(id: nat)
      modifies this
      ensures nodes == old(nodes) - {id} && settings == old(settings)
    {
      nodes := nodes - {id};
    }

    /** `isLinkExists`: loads the link's entity and field and looks for the URL among the field's links. */
    method IsLinkExists(link: Link) returns (b: bool)
      ensures b == Live(nodes, settings, site, link)
    {
      if link.entity !in nodes {
        return false;
      }
      var node := nodes[link.entity];
      if link.field !in node.fields {
        return false;
      }
      var links := FieldLinks(node, link.field, settings, site);
      b := Contains(links, link.url);
    }
  }
}
